/** When a token is renewed, for how long it is asked, and what the renewal leaves behind. */
module TokenRenewal {
  import opened Wrappers
  import opened Time
  import opened Cluster

  const RENEWAL_MARGIN: int := 600 * SECOND
  const REQUEST_PAD_SECONDS: int := 1800
  const TOLERANCE: int := 5 * SECOND
  const DEFAULT_KUBECONFIG_KEY := "re-kubeconfig"

  function RenewalThreshold(interval: int): int {
    if interval > RENEWAL_MARGIN then WholeSeconds(interval - RENEWAL_MARGIN) * SECOND
    else WholeSeconds(interval) * SECOND
  }

  function LastRenewal(recorded: Timestamp, created: int): int {
    match recorded
    case At(seconds) => seconds * SECOND
    case _ => created
  }

  predicate ShouldRenewTokenRequest(opt: Option<RenewalOption>, recorded: Timestamp, created: int, now: int) {
    opt.Some? && now - LastRenewal(recorded, created) > RenewalThreshold(opt.value.renewTokenRequestInterval)
  }

  /**
   * How long after the last renewal the next is not yet due, in nanoseconds: the interval, less ten minutes when it
   * is longer than that, cut to whole seconds.
   */
  function RestingTime(interval: int): int {
    CutToSecond(if interval > 600_000_000_000 then interval - 600_000_000_000 else interval)
  }

  lemma ThresholdIsRestingTime(interval: int)
    ensures RenewalThreshold(interval) == RestingTime(interval)
  {
    WholeSecondsCut(interval - 600_000_000_000);
    WholeSecondsCut(interval);
  }

  /**
   * A renewal is due exactly when the option is set and more than that time has passed since the last renewal
   * recorded or, while none is recorded that can be read, since the cluster was created.
   */
  lemma RenewalDueExactly(opt: Option<RenewalOption>, recorded: Timestamp, created: int, now: int)
    ensures recorded.At? ==>
              (ShouldRenewTokenRequest(opt, recorded, created, now) <==>
                 opt.Some? && now - recorded.seconds * 1_000_000_000 > RestingTime(opt.value.renewTokenRequestInterval))
    ensures !recorded.At? ==>
              (ShouldRenewTokenRequest(opt, recorded, created, now) <==>
                 opt.Some? && now - created > RestingTime(opt.value.renewTokenRequestInterval))
  {
    if opt.Some? {
      ThresholdIsRestingTime(opt.value.renewTokenRequestInterval);
    }
  }

  /** The lifetime a token is requested for, in whole seconds. */
  function EffectiveTokenSeconds(opt: RenewalOption): int {
    if opt.tokenDuration == 0 then WholeSeconds(opt.renewTokenRequestInterval + REQUEST_PAD_SECONDS * SECOND)
    else WholeSeconds(opt.tokenDuration)
  }

  /** A token as the renewal sees it: its expiry when the JWT can be read, and the clock when it is measured. */
  datatype Token = Token(expiry: Option<int>, measuredAt: int)

  /** The renewal interval after a token was issued: its remaining lifetime if clearly shorter than requested. */
  function AdjustTokenRequestRenewalOption(opt: RenewalOption, token: Token): int {
    if token.expiry.None? then opt.renewTokenRequestInterval
    else
      var requestedDuration := EffectiveTokenSeconds(opt) * SECOND;
      var actualLifetime := token.expiry.value - token.measuredAt;
      if actualLifetime < requestedDuration - TOLERANCE then actualLifetime
      else opt.renewTokenRequestInterval
  }

  /** The lifetime requested, in nanoseconds: TokenDuration, or the interval and half an hour while it is unset. */
  function RequestedLifetime(opt: RenewalOption): int {
    CutToSecond(if opt.tokenDuration == 0 then opt.renewTokenRequestInterval + 1_800_000_000_000
                else opt.tokenDuration)
  }

  lemma RequestedLifetimeExactly(opt: RenewalOption)
    ensures EffectiveTokenSeconds(opt) * 1_000_000_000 == RequestedLifetime(opt)
  {
    WholeSecondsCut(opt.renewTokenRequestInterval + 1_800_000_000_000);
    WholeSecondsCut(opt.tokenDuration);
  }

  /** The interval is adjusted exactly when the lifetime left can be read and is over five seconds short of that. */
  lemma AdjustsExactly(opt: RenewalOption, token: Token)
    ensures AdjustTokenRequestRenewalOption(opt, token) ==
              if token.expiry.Some? && token.expiry.value - token.measuredAt < RequestedLifetime(opt) - 5_000_000_000
              then token.expiry.value - token.measuredAt
              else opt.renewTokenRequestInterval
  {
    RequestedLifetimeExactly(opt);
  }

  function Adjusted(opt: RenewalOption, token: Token): RenewalOption {
    opt.(renewTokenRequestInterval := AdjustTokenRequestRenewalOption(opt, token))
  }

  function GetKubeconfigKey(opt: Option<RenewalOption>): string {
    if opt.Some? && opt.value.kubeconfigKeyName.Some? && opt.value.kubeconfigKeyName.value != ""
    then opt.value.kubeconfigKeyName.value
    else DEFAULT_KUBECONFIG_KEY
  }

  /** What happens if a token is requested at this turn: no token, or one that is then stored or not. */
  datatype Attempt = Refused | Issued(token: Token, stored: bool, recordedAt: int)

  datatype ServiceAccount = ServiceAccount(namespace: string, name: string)

  datatype Context = Context(namespace: string, authInfo: string, attempt: Attempt)

  datatype Request = Request(account: ServiceAccount, seconds: int)

  datatype Kubeconfig = Kubeconfig(account: ServiceAccount, token: Token)

  datatype Write = Write(key: string, kubeconfig: Kubeconfig)

  /**
   * The Secret holding a cluster's kubeconfig, as the log of updates it accepted; in pull mode, of those
   * committed for the agent to apply.
   */
  class KubeconfigSecret {
    var writes: seq<Write>

    constructor ()
      ensures writes == []
    {
      writes := [];
    }
  }

  /** Everything outside the controller that a push-mode renewal depends on. */
  datatype RenewalInputs = RenewalInputs(
    secret: Result<Result<seq<Context>, string>, string>,
    whoami: Result<Option<ServiceAccount>, string>)

  /** The account the renewal option names, or else the one the cluster says it is talking to. */
  function GetServiceAccountDetails(opt: RenewalOption, whoami: Result<Option<ServiceAccount>, string>)
    : Result<ServiceAccount, string>
  {
    if opt.saNamespace != "" && opt.saName != "" then Success(ServiceAccount(opt.saNamespace, opt.saName))
    else match whoami
      case Failure(e) => Failure(e)
      case Success(None) => Success(ServiceAccount("", ""))
      case Success(Some(account)) => Success(account)
  }

  // What the loop over contexts is for, said without its sticky state

  /** Index of the first context naming a user, or the number of contexts. */
  function FirstNamed(contexts: seq<Context>): (i: nat)
    ensures i <= |contexts|
    ensures forall j :: 0 <= j < i ==> contexts[j].authInfo == ""
    ensures i < |contexts| ==> contexts[i].authInfo != ""
  {
    if contexts == [] || contexts[0].authInfo != "" then 0 else 1 + FirstNamed(contexts[1..])
  }

  /** The one account every token request of a renewal is made for. */
  function RenewedAccount(found: ServiceAccount, contexts: seq<Context>): ServiceAccount {
    if found.name != "" then found
    else
      var i := FirstNamed(contexts);
      if i < |contexts| then ServiceAccount(contexts[i].namespace, contexts[i].authInfo)
      else ServiceAccount("", "")
  }

  /** The contexts a token is requested for: none without a namespace, else all from the first usable one. */
  function Tried(found: ServiceAccount, contexts: seq<Context>): seq<Context> {
    var account := RenewedAccount(found, contexts);
    if account.namespace == "" || account.name == "" then []
    else if found.name != "" then contexts
    else contexts[FirstNamed(contexts)..]
  }

  function Requests(tried: seq<Context>, request: Request): seq<Request> {
    seq(|tried|, i => request)
  }

  /** The renewal option after the tokens of these contexts were issued, in order. */
  function AdjustedBy(opt: RenewalOption, tried: seq<Context>): RenewalOption {
    if tried == [] then opt
    else
      var n := |tried| - 1;
      var before := AdjustedBy(opt, tried[..n]);
      if tried[n].attempt.Issued? then Adjusted(before, tried[n].attempt.token) else before
  }

  /** The contexts whose token was issued and stored. */
  function Stored(tried: seq<Context>): (r: seq<Context>)
    ensures forall c :: c in r <==> c in tried && c.attempt.Issued? && c.attempt.stored
  {
    if tried == [] then []
    else
      var n := |tried| - 1;
      if tried[n].attempt.Issued? && tried[n].attempt.stored then Stored(tried[..n]) + [tried[n]]
      else Stored(tried[..n])
  }

  function WritesOf(stored: seq<Context>, key: string, account: ServiceAccount): (r: seq<Write>)
    requires forall c :: c in stored ==> c.attempt.Issued?
  {
    seq(|stored|, i requires 0 <= i < |stored| => Write(key, Kubeconfig(account, stored[i].attempt.token)))
  }

  function LastRecorded(stored: seq<Context>, recorded: Timestamp): Timestamp
    requires forall c :: c in stored ==> c.attempt.Issued?
  {
    if stored == [] then recorded else Format(stored[|stored| - 1].attempt.recordedAt)
  }

  /** The cluster after a renewal that tried these contexts. */
  ghost predicate Renewed(spec: ClusterSpec, status: ClusterStatus, opt: RenewalOption, tried: seq<Context>,
                          spec': ClusterSpec, status': ClusterStatus) {
    var stored := Stored(tried);
    && spec' == spec.(tokenRequestRenewalOption := Some(AdjustedBy(opt, tried)),
                      kubeconfigKeyName := if stored == [] then spec.kubeconfigKeyName else GetKubeconfigKey(Some(opt)))
    && status' == status.(lastReconciledTokenRequestAt := LastRecorded(stored, status.lastReconciledTokenRequestAt))
  }

  /** The cluster and the Secret after a renewal that tried these contexts. */
  ghost predicate Advanced(opt: RenewalOption, account: ServiceAccount, done: seq<Context>,
                           spec: ClusterSpec, status: ClusterStatus, writes: seq<Write>,
                           spec': ClusterSpec, status': ClusterStatus, writes': seq<Write>) {
    && Renewed(spec, status, opt, done, spec', status')
    && writes' == writes + WritesOf(Stored(done), GetKubeconfigKey(Some(opt)), account)
  }

  lemma {:induction false} AdjustedKeepsKey(opt: RenewalOption, tried: seq<Context>)
    ensures AdjustedBy(opt, tried) ==
              opt.(renewTokenRequestInterval := AdjustedBy(opt, tried).renewTokenRequestInterval)
    ensures GetKubeconfigKey(Some(AdjustedBy(opt, tried))) == GetKubeconfigKey(Some(opt))
  {
    if tried != [] {
      AdjustedKeepsKey(opt, tried[..|tried| - 1]);
    }
  }

  // A renewal told from the option, the answer of whoami and the contexts alone

  ghost predicate IsFor(account: ServiceAccount, requests: seq<Request>, written: seq<Write>) {
    && (forall i :: 0 <= i < |requests| ==> requests[i].account == account)
    && (forall i :: 0 <= i < |written| ==> written[i].kubeconfig.account == account)
  }

  /** The i-th context is the first one naming a user. */
  ghost predicate FirstUser(contexts: seq<Context>, i: int) {
    0 <= i < |contexts| && contexts[i].authInfo != "" && forall j :: 0 <= j < i ==> contexts[j].authInfo == ""
  }

  /**
   * The account everything is requested and written for: the one the option names, whatever whoami answers; else
   * the one whoami names; else that of the first context naming a user. Without a namespace nothing is requested.
   */
  ghost predicate AccountTold(opt: RenewalOption, whoami: Result<Option<ServiceAccount>, string>,
                              contexts: seq<Context>, requests: seq<Request>, written: seq<Write>) {
    if opt.saNamespace != "" && opt.saName != "" then
      && IsFor(ServiceAccount(opt.saNamespace, opt.saName), requests, written)
      && |requests| == |contexts|
    else if whoami.Failure? then requests == [] && written == []
    else if whoami.value.Some? && whoami.value.value.name != "" then
      && IsFor(whoami.value.value, requests, written)
      && |requests| == if whoami.value.value.namespace == "" then 0 else |contexts|
    else
      && (forall i :: FirstUser(contexts, i) ==>
            && IsFor(ServiceAccount(contexts[i].namespace, contexts[i].authInfo), requests, written)
            && |requests| == if contexts[i].namespace == "" then 0 else |contexts| - i)
      && ((forall i :: 0 <= i < |contexts| ==> contexts[i].authInfo == "") ==> requests == [] && written == [])
  }

  /** The i-th context was tried, and its token issued and stored. */
  ghost predicate StoredAt(contexts: seq<Context>, requested: int, i: int) {
    |contexts| - requested <= i < |contexts| && 0 <= i && contexts[i].attempt.Issued? && contexts[i].attempt.stored
  }

  ghost predicate LastAt(contexts: seq<Context>, requested: int, i: int) {
    StoredAt(contexts, requested, i) && forall j :: i < j < |contexts| ==> !StoredAt(contexts, requested, j)
  }

  /** Every request is for that lifetime. */
  ghost predicate LifetimeTold(opt: RenewalOption, requests: seq<Request>) {
    forall i :: 0 <= i < |requests| ==> requests[i].seconds * 1_000_000_000 == RequestedLifetime(opt)
  }

  /** The token written comes from a context that was tried, and goes under the one key. */
  ghost predicate WriteTold(opt: RenewalOption, contexts: seq<Context>, requested: int, write: Write) {
    && write.key == (if opt.kubeconfigKeyName.None? || opt.kubeconfigKeyName.value == "" then "re-kubeconfig"
                     else opt.kubeconfigKeyName.value)
    && exists c :: StoredAt(contexts, requested, c) && contexts[c].attempt.token == write.kubeconfig.token
  }

  /** The last token stored is the last one written, and the time it was recorded at is kept; none leaves the time. */
  ghost predicate RecordedTold(contexts: seq<Context>, requested: int, written: seq<Write>, recorded: Timestamp,
                               recorded': Timestamp) {
    && (written == [] ==> recorded' == recorded)
    && forall c :: LastAt(contexts, requested, c) ==> KeptFrom(contexts[c], written, recorded')
  }

  /** The last write and the time recorded are those of this context. */
  ghost predicate KeptFrom(context: Context, written: seq<Write>, recorded: Timestamp)
    requires context.attempt.Issued?
  {
    && written != [] && written[|written| - 1].kubeconfig.token == context.attempt.token
    && recorded == At(context.attempt.recordedAt / 1_000_000_000)
  }

  ghost predicate DeliveryTold(opt: RenewalOption, contexts: seq<Context>, requests: seq<Request>, written: seq<Write>,
                               recorded: Timestamp, recorded': Timestamp) {
    && LifetimeTold(opt, requests)
    && (forall i :: 0 <= i < |written| ==> WriteTold(opt, contexts, |requests|, written[i]))
    && RecordedTold(contexts, |requests|, written, recorded, recorded')
  }

  lemma FirstUserIsFirstNamed(contexts: seq<Context>, i: int)
    requires FirstUser(contexts, i)
    ensures FirstNamed(contexts) == i
  {
  }

  lemma AccountIsTold(opt: RenewalOption, whoami: Result<Option<ServiceAccount>, string>, contexts: seq<Context>,
                      seconds: int, key: string)
    requires GetServiceAccountDetails(opt, whoami).Success?
    ensures var found := GetServiceAccountDetails(opt, whoami).value;
            var account, tried := RenewedAccount(found, contexts), Tried(found, contexts);
            AccountTold(opt, whoami, contexts, Requests(tried, Request(account, seconds)),
                        WritesOf(Stored(tried), key, account))
  {
    forall i | FirstUser(contexts, i)
      ensures FirstNamed(contexts) == i
    {
      FirstUserIsFirstNamed(contexts, i);
    }
  }

  lemma {:induction false} LastStored(tried: seq<Context>, i: int)
    requires 0 <= i < |tried| && tried[i].attempt.Issued? && tried[i].attempt.stored
    requires forall j :: i < j < |tried| ==> !(tried[j].attempt.Issued? && tried[j].attempt.stored)
    ensures Stored(tried) != [] && Stored(tried)[|Stored(tried)| - 1] == tried[i]
  {
    if i < |tried| - 1 {
      LastStored(tried[..|tried| - 1], i);
    }
  }

  lemma TriedIsSuffix(found: ServiceAccount, contexts: seq<Context>)
    ensures var tried := Tried(found, contexts); |tried| <= |contexts| && tried == contexts[|contexts| - |tried|..]
  {
  }

  lemma StoredComesFromTried(contexts: seq<Context>, tried: seq<Context>, i: int)
    requires |tried| <= |contexts| && tried == contexts[|contexts| - |tried|..]
    requires 0 <= i < |Stored(tried)|
    ensures exists c :: StoredAt(contexts, |tried|, c) && contexts[c] == Stored(tried)[i]
  {
    var context := Stored(tried)[i];
    assert context in Stored(tried);
    var j :| 0 <= j < |tried| && tried[j] == context;
    assert StoredAt(contexts, |tried|, |contexts| - |tried| + j);
  }

  lemma LastStoredAt(contexts: seq<Context>, tried: seq<Context>, c: int)
    requires |tried| <= |contexts| && tried == contexts[|contexts| - |tried|..]
    requires LastAt(contexts, |tried|, c)
    ensures Stored(tried) != [] && Stored(tried)[|Stored(tried)| - 1] == contexts[c]
  {
    var skipped := |contexts| - |tried|;
    forall j | c - skipped < j < |tried|
      ensures !(tried[j].attempt.Issued? && tried[j].attempt.stored)
    {
      assert !StoredAt(contexts, |tried|, skipped + j);
    }
    LastStored(tried, c - skipped);
  }

  lemma LastStoredIsKept(stored: seq<Context>, key: string, account: ServiceAccount, recorded: Timestamp)
    requires stored != [] && forall c :: c in stored ==> c.attempt.Issued?
    ensures KeptFrom(stored[|stored| - 1], WritesOf(stored, key, account), LastRecorded(stored, recorded))
  {
    FormatExactly(stored[|stored| - 1].attempt.recordedAt);
  }

  lemma LastIsKept(contexts: seq<Context>, tried: seq<Context>, key: string, account: ServiceAccount,
                   recorded: Timestamp, c: int)
    requires |tried| <= |contexts| && tried == contexts[|contexts| - |tried|..]
    requires LastAt(contexts, |tried|, c)
    ensures KeptFrom(contexts[c], WritesOf(Stored(tried), key, account), LastRecorded(Stored(tried), recorded))
  {
    LastStoredAt(contexts, tried, c);
    LastStoredIsKept(Stored(tried), key, account, recorded);
  }

  lemma RecordedIsTold(contexts: seq<Context>, tried: seq<Context>, key: string, account: ServiceAccount,
                       recorded: Timestamp)
    requires |tried| <= |contexts| && tried == contexts[|contexts| - |tried|..]
    ensures RecordedTold(contexts, |tried|, WritesOf(Stored(tried), key, account), recorded,
                         LastRecorded(Stored(tried), recorded))
  {
    forall c | LastAt(contexts, |tried|, c)
      ensures KeptFrom(contexts[c], WritesOf(Stored(tried), key, account), LastRecorded(Stored(tried), recorded))
    {
      LastIsKept(contexts, tried, key, account, recorded, c);
    }
  }

  lemma WriteIsTold(opt: RenewalOption, contexts: seq<Context>, tried: seq<Context>, account: ServiceAccount, i: int)
    requires |tried| <= |contexts| && tried == contexts[|contexts| - |tried|..]
    requires 0 <= i < |Stored(tried)|
    ensures WriteTold(opt, contexts, |tried|, WritesOf(Stored(tried), GetKubeconfigKey(Some(opt)), account)[i])
  {
    StoredComesFromTried(contexts, tried, i);
  }

  lemma DeliveryIsTold(opt: RenewalOption, account: ServiceAccount, contexts: seq<Context>, tried: seq<Context>,
                       recorded: Timestamp)
    requires |tried| <= |contexts| && tried == contexts[|contexts| - |tried|..]
    ensures DeliveryTold(opt, contexts, Requests(tried, Request(account, EffectiveTokenSeconds(opt))),
                         WritesOf(Stored(tried), GetKubeconfigKey(Some(opt)), account),
                         recorded, LastRecorded(Stored(tried), recorded))
  {
    RequestedLifetimeExactly(opt);
    RecordedIsTold(contexts, tried, GetKubeconfigKey(Some(opt)), account, recorded);
    forall i | 0 <= i < |Stored(tried)|
      ensures WriteTold(opt, contexts, |tried|, WritesOf(Stored(tried), GetKubeconfigKey(Some(opt)), account)[i])
    {
      WriteIsTold(opt, contexts, tried, account, i);
    }
  }

  method HandleTokenRequestRenewal(cluster: SveltosCluster, secret: KubeconfigSecret, inputs: RenewalInputs)
    returns (err: Option<string>, requests: seq<Request>)
    modifies cluster`spec, cluster`status, secret
    ensures old(cluster.spec.tokenRequestRenewalOption).None? ==>
              && err == None && requests == []
              && cluster.spec == old(cluster.spec) && cluster.status == old(cluster.status)
              && secret.writes == old(secret.writes)
    ensures old(cluster.spec.tokenRequestRenewalOption).Some? ==>
              var opt := old(cluster.spec.tokenRequestRenewalOption).value;
              var found := GetServiceAccountDetails(opt, inputs.whoami);
              if inputs.secret.Failure? || inputs.secret.value.Failure? || found.Failure? then
                && requests == [] && cluster.spec == old(cluster.spec) && cluster.status == old(cluster.status)
                && secret.writes == old(secret.writes)
                && err == Some(if inputs.secret.Failure? then inputs.secret.error
                               else if inputs.secret.value.Failure? then inputs.secret.value.error else found.error)
              else
                var contexts := inputs.secret.value.value;
                var account := RenewedAccount(found.value, contexts);
                var tried := Tried(found.value, contexts);
                && err == None
                && requests == Requests(tried, Request(account, EffectiveTokenSeconds(opt)))
                && Renewed(old(cluster.spec), old(cluster.status), opt, tried, cluster.spec, cluster.status)
                && secret.writes == old(secret.writes) + WritesOf(Stored(tried), GetKubeconfigKey(Some(opt)), account)
    ensures old(cluster.spec.tokenRequestRenewalOption).Some?
            && inputs.secret.Success? && inputs.secret.value.Success? ==>
              var opt, contexts := old(cluster.spec.tokenRequestRenewalOption).value, inputs.secret.value.value;
              var written := secret.writes[|old(secret.writes)|..];
              && AccountTold(opt, inputs.whoami, contexts, requests, written)
              && DeliveryTold(opt, contexts, requests, written, old(cluster.status).lastReconciledTokenRequestAt,
                              cluster.status.lastReconciledTokenRequestAt)
  {
    requests := [];
    if cluster.spec.tokenRequestRenewalOption.None? {
      return None, [];
    }
    ghost var opt := cluster.spec.tokenRequestRenewalOption.value;
    var saExpirationInSecond := EffectiveTokenSeconds(cluster.spec.tokenRequestRenewalOption.value);
    if inputs.secret.Failure? {
      return Some(inputs.secret.error), [];
    }
    if inputs.secret.value.Failure? {
      return Some(inputs.secret.value.error), [];
    }
    var contexts := inputs.secret.value.value;
    var details := GetServiceAccountDetails(cluster.spec.tokenRequestRenewalOption.value, inputs.whoami);
    if details.Failure? {
      return Some(details.error), [];
    }
    AccountIsTold(opt, inputs.whoami, contexts, saExpirationInSecond, GetKubeconfigKey(Some(opt)));
    TriedIsSuffix(details.value, contexts);
    DeliveryIsTold(opt, RenewedAccount(details.value, contexts), contexts, Tried(details.value, contexts),
                   cluster.status.lastReconciledTokenRequestAt);
    requests := RenewContexts(cluster, secret, contexts, details.value, saExpirationInSecond);
    err := None;
  }

  method RenewContexts(cluster: SveltosCluster, secret: KubeconfigSecret, contexts: seq<Context>,
                       found: ServiceAccount, saExpirationInSecond: int)
    returns (requests: seq<Request>)
    requires cluster.spec.tokenRequestRenewalOption.Some?
    modifies cluster`spec, cluster`status, secret
    ensures var opt := old(cluster.spec.tokenRequestRenewalOption).value;
            var account := RenewedAccount(found, contexts);
            var tried := Tried(found, contexts);
            && requests == Requests(tried, Request(account, saExpirationInSecond))
            && Renewed(old(cluster.spec), old(cluster.status), opt, tried, cluster.spec, cluster.status)
            && secret.writes == old(secret.writes) + WritesOf(Stored(tried), GetKubeconfigKey(Some(opt)), account)
  {
    ghost var opt := cluster.spec.tokenRequestRenewalOption.value;
    ghost var start := Start(opt, found, contexts, saExpirationInSecond, cluster.spec, cluster.status, secret.writes);
    requests := [];
    var saNamespace, saName := found.namespace, found.name;
    NothingTried(cluster, secret, start);
    for i := 0 to |contexts|
      invariant AtTurn(cluster, secret, start, i, ServiceAccount(saNamespace, saName), requests)
    {
      saNamespace, saName, requests := RenewTurn(cluster, secret, contexts, i, saNamespace, saName,
                                                 saExpirationInSecond, requests, start);
    }
    AllTried(found, contexts);
  }

  /** Where the renewal stands once these contexts were tried, from the given starting point. */
  ghost predicate Progress(cluster: SveltosCluster, secret: KubeconfigSecret, opt: RenewalOption,
                           account: ServiceAccount, done: seq<Context>,
                           spec: ClusterSpec, status: ClusterStatus, writes: seq<Write>)
    reads cluster, secret
  {
    Advanced(opt, account, done, spec, status, writes, cluster.spec, cluster.status, secret.writes)
  }

  /** The account held by the loop before context i. */
  ghost predicate Sticky(found: ServiceAccount, contexts: seq<Context>, i: nat, held: ServiceAccount)
    requires i <= |contexts|
  {
    if found.name != "" then held == found
    else if i <= FirstNamed(contexts) then held.name == ""
    else held == RenewedAccount(found, contexts)
  }

  lemma OneMoreRequest(before: seq<Context>, context: Context, request: Request)
    ensures Requests(before + [context], request) == Requests(before, request) + [request]
  {
  }

  lemma StickyTurn(found: ServiceAccount, contexts: seq<Context>, i: nat, held: ServiceAccount)
    requires i < |contexts| && Sticky(found, contexts, i, held)
    ensures var held' := if held.name == "" then ServiceAccount(contexts[i].namespace, contexts[i].authInfo) else held;
            && Sticky(found, contexts, i + 1, held')
            && if held'.namespace == "" || held'.name == "" then
                 TriedBefore(found, contexts, i + 1) == TriedBefore(found, contexts, i)
               else
                 && held' == RenewedAccount(found, contexts)
                 && TriedBefore(found, contexts, i + 1) == TriedBefore(found, contexts, i) + [contexts[i]]
  {
  }

  ghost function TriedBefore(found: ServiceAccount, contexts: seq<Context>, i: nat): seq<Context>
    requires i <= |contexts|
  {
    var account := RenewedAccount(found, contexts);
    var start := if found.name != "" then 0 else FirstNamed(contexts);
    if account.namespace == "" || account.name == "" || i <= start then [] else contexts[start..i]
  }

  /** What the loop starts from. */
  datatype Start = Start(opt: RenewalOption, found: ServiceAccount, contexts: seq<Context>, seconds: int,
                         spec: ClusterSpec, status: ClusterStatus, writes: seq<Write>)
  {
    ghost function Account(): ServiceAccount {
      RenewedAccount(found, contexts)
    }
  }

  /** Where the loop stands before context i. */
  ghost predicate AtTurn(cluster: SveltosCluster, secret: KubeconfigSecret, start: Start, i: nat, held: ServiceAccount,
                         requests: seq<Request>)
    requires i <= |start.contexts|
    reads cluster, secret
  {
    var done := TriedBefore(start.found, start.contexts, i);
    && Sticky(start.found, start.contexts, i, held)
    && requests == Requests(done, Request(start.Account(), start.seconds))
    && Progress(cluster, secret, start.opt, start.Account(), done, start.spec, start.status, start.writes)
  }

  lemma NothingTried(cluster: SveltosCluster, secret: KubeconfigSecret, start: Start)
    requires cluster.spec.tokenRequestRenewalOption == Some(start.opt)
    requires start.spec == cluster.spec && start.status == cluster.status && start.writes == secret.writes
    ensures AtTurn(cluster, secret, start, 0, start.found, [])
  {
  }

  lemma AllTried(found: ServiceAccount, contexts: seq<Context>)
    ensures TriedBefore(found, contexts, |contexts|) == Tried(found, contexts)
  {
  }

  // One turn of the loop, on values

  lemma LastTried(before: seq<Context>, context: Context)
    ensures (before + [context])[..|before|] == before
  {
  }

  lemma RefusedAdvances(opt: RenewalOption, account: ServiceAccount, before: seq<Context>, context: Context,
                        spec: ClusterSpec, status: ClusterStatus, writes: seq<Write>,
                        spec': ClusterSpec, status': ClusterStatus, writes': seq<Write>)
    requires context.attempt.Refused?
    requires Advanced(opt, account, before, spec, status, writes, spec', status', writes')
    ensures Advanced(opt, account, before + [context], spec, status, writes, spec', status', writes')
  {
    LastTried(before, context);
  }

  /** An issued token adjusts the renewal option, whether it is then stored or not. */
  lemma UnstoredAdvances(opt: RenewalOption, account: ServiceAccount, before: seq<Context>, context: Context,
                         spec: ClusterSpec, status: ClusterStatus, writes: seq<Write>,
                         spec': ClusterSpec, status': ClusterStatus, writes': seq<Write>)
    requires context.attempt.Issued? && !context.attempt.stored
    requires Advanced(opt, account, before, spec, status, writes, spec', status', writes')
    ensures var option := Adjusted(spec'.tokenRequestRenewalOption.value, context.attempt.token);
            Advanced(opt, account, before + [context], spec, status, writes,
                     spec'.(tokenRequestRenewalOption := Some(option)), status', writes')
  {
    LastTried(before, context);
  }

  lemma WritesOfOneMore(stored: seq<Context>, context: Context, key: string, account: ServiceAccount)
    requires forall c :: c in stored ==> c.attempt.Issued?
    requires context.attempt.Issued?
    ensures WritesOf(stored + [context], key, account) ==
              WritesOf(stored, key, account) + [Write(key, Kubeconfig(account, context.attempt.token))]
  {
  }

  lemma StoredAdvances(opt: RenewalOption, account: ServiceAccount, before: seq<Context>, context: Context,
                       spec: ClusterSpec, status: ClusterStatus, writes: seq<Write>,
                       spec': ClusterSpec, status': ClusterStatus, writes': seq<Write>)
    requires context.attempt.Issued? && context.attempt.stored
    requires Advanced(opt, account, before, spec, status, writes, spec', status', writes')
    ensures var attempt := context.attempt;
            var option := Adjusted(spec'.tokenRequestRenewalOption.value, attempt.token);
            var key := GetKubeconfigKey(Some(opt));
            Advanced(opt, account, before + [context], spec, status, writes,
                     spec'.(tokenRequestRenewalOption := Some(option), kubeconfigKeyName := key),
                     status'.(lastReconciledTokenRequestAt := Format(attempt.recordedAt)),
                     writes' + [Write(key, Kubeconfig(account, attempt.token))])
  {
    LastTried(before, context);
    WritesOfOneMore(Stored(before), context, GetKubeconfigKey(Some(opt)), account);
  }

  /** The token request of one context and what follows from it. */
  method RenewContext(cluster: SveltosCluster, secret: KubeconfigSecret, account: ServiceAccount, context: Context,
                      ghost opt: RenewalOption, ghost before: seq<Context>,
                      ghost spec: ClusterSpec, ghost status: ClusterStatus, ghost writes: seq<Write>)
    requires Progress(cluster, secret, opt, account, before, spec, status, writes)
    modifies cluster`spec, cluster`status, secret
    ensures Progress(cluster, secret, opt, account, before + [context], spec, status, writes)
  {
    ghost var spec', status', writes' := cluster.spec, cluster.status, secret.writes;
    var attempt := context.attempt;
    if attempt.Refused? {
      RefusedAdvances(opt, account, before, context, spec, status, writes, spec', status', writes');
      return;
    }
    AdjustedKeepsKey(opt, before);
    var option := cluster.spec.tokenRequestRenewalOption.value;
    cluster.spec := cluster.spec.(tokenRequestRenewalOption := Some(Adjusted(option, attempt.token)));
    var key := GetKubeconfigKey(cluster.spec.tokenRequestRenewalOption);
    if !attempt.stored {
      UnstoredAdvances(opt, account, before, context, spec, status, writes, spec', status', writes');
      return;
    }
    secret.writes := secret.writes + [Write(key, Kubeconfig(account, attempt.token))];
    if cluster.spec.kubeconfigKeyName != key {
      cluster.spec := cluster.spec.(kubeconfigKeyName := key);
    }
    cluster.status := cluster.status.(lastReconciledTokenRequestAt := Format(attempt.recordedAt));
    StoredAdvances(opt, account, before, context, spec, status, writes, spec', status', writes');
  }

  /** One turn of the loop: the account is fixed if it was not, and a token requested unless it is unusable. */
  method RenewTurn(cluster: SveltosCluster, secret: KubeconfigSecret, contexts: seq<Context>, i: nat,
                   namespace: string, name: string, saExpirationInSecond: int, done: seq<Request>, ghost start: Start)
    returns (saNamespace: string, saName: string, requests: seq<Request>)
    requires start.contexts == contexts && start.seconds == saExpirationInSecond && i < |contexts|
    requires AtTurn(cluster, secret, start, i, ServiceAccount(namespace, name), done)
    modifies cluster`spec, cluster`status, secret
    ensures AtTurn(cluster, secret, start, i + 1, ServiceAccount(saNamespace, saName), requests)
  {
    saNamespace, saName, requests := namespace, name, done;
    StickyTurn(start.found, contexts, i, ServiceAccount(namespace, name));
    if saName == "" {
      saNamespace := contexts[i].namespace;
      saName := contexts[i].authInfo;
    }
    if saNamespace == "" || saName == "" {
      return;
    }
    requests := requests + [Request(ServiceAccount(saNamespace, saName), saExpirationInSecond)];
    ghost var tried := TriedBefore(start.found, contexts, i);
    OneMoreRequest(tried, contexts[i], Request(start.Account(), start.seconds));
    RenewContext(cluster, secret, ServiceAccount(saNamespace, saName), contexts[i],
                 start.opt, tried, start.spec, start.status, start.writes);
  }
}
