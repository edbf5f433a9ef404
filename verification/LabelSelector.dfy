/** The printer that turns label filters and a standard selector into one selector string. */
module LabelSelector {
  import opened Wrappers

  datatype Operation = OperationEqual | OperationDifferent | OperationHas | OperationDoesNotHave | OperationOther

  datatype LabelFilter = LabelFilter(key: string, operation: Operation, value: string)

  function Rendered(f: LabelFilter): string {
    match f.operation
    case OperationEqual => f.key + "=" + f.value
    case OperationDifferent => f.key + "!=" + f.value
    case OperationHas => f.key
    case OperationDoesNotHave => "!" + f.key
    case OperationOther => ""
  }

  function Printed(filters: seq<LabelFilter>): string {
    if filters == [] then ""
    else
      var n := |filters| - 1;
      var before := Printed(filters[..n]);
      (if before != "" then before + "," else before) + Rendered(filters[n])
  }

  function Conjoined(labelFilter: string, selector: string): string {
    if selector == "" then labelFilter
    else if labelFilter != "" then labelFilter + "," + selector
    else selector
  }

  /** selector is absent, cannot be converted, or is given as its printed form. */
  method CalculateLabelSelector(filters: seq<LabelFilter>, selector: Option<Result<string, string>>)
    returns (r: Result<string, string>)
    ensures r == match selector
                 case None => Success(Printed(filters))
                 case Some(Failure(e)) => Failure(e)
                 case Some(Success(text)) => Success(Conjoined(Printed(filters), text))
  {
    var labelFilter := "";
    for i := 0 to |filters|
      invariant labelFilter == Printed(filters[..i])
    {
      assert filters[..i + 1][..i] == filters[..i];
      if labelFilter != "" {
        labelFilter := labelFilter + ",";
      }
      var f := filters[i];
      match f.operation {
        case OperationEqual => labelFilter := labelFilter + (f.key + "=" + f.value);
        case OperationDifferent => labelFilter := labelFilter + (f.key + "!=" + f.value);
        case OperationHas => labelFilter := labelFilter + f.key;
        case OperationDoesNotHave => labelFilter := labelFilter + ("!" + f.key);
        case OperationOther => assert labelFilter + Rendered(f) == labelFilter;
      }
    }
    assert filters[..|filters|] == filters;
    match selector {
      case None =>
      case Some(Failure(e)) => return Failure(e);
      case Some(Success(selectorString)) =>
        if selectorString != "" {
          if labelFilter != "" {
            labelFilter := labelFilter + "," + selectorString;
          } else {
            labelFilter := selectorString;
          }
        }
    }
    return Success(labelFilter);
  }
}

/** What a selector string means to the API server, and that printing keeps that meaning. */
module LabelSelectorMeaning {
  import opened Wrappers
  import opened LabelSelector

  type Labels = map<string, string>

  ghost predicate Holds(f: LabelFilter, labels: Labels) {
    match f.operation
    case OperationEqual => f.key in labels && labels[f.key] == f.value
    case OperationDifferent => f.key !in labels || labels[f.key] != f.value
    case OperationHas => f.key in labels
    case OperationDoesNotHave => f.key !in labels
    case OperationOther => true
  }

  // Reading a selector: requirements are separated by commas outside parentheses

  function RequirementsFrom(s: string, depth: int, current: string): (r: seq<string>)
    ensures r != []
  {
    if s == "" then [current]
    else if s[0] == ',' && depth == 0 then [current] + RequirementsFrom(s[1..], 0, "")
    else
      var depth' := if s[0] == '(' then depth + 1 else if s[0] == ')' then depth - 1 else depth;
      RequirementsFrom(s[1..], depth', current + [s[0]])
  }

  /** The requirements of a selector; the empty selector has none. */
  function Requirements(selector: string): seq<string> {
    if selector == "" then [] else RequirementsFrom(selector, 0, "")
  }

  /** The symbols and the white space at which the API server cuts a selector into tokens. */
  predicate IsSeparator(c: char) {
    c in {',', '(', ')', '=', '!', '<', '>', ' ', '\t', '\r', '\n'}
  }

  predicate Plain(s: string) {
    forall i :: 0 <= i < |s| ==> !IsSeparator(s[i])
  }

  /** Index of the first '=' or '!', or the length. */
  function OperatorIndex(s: string): (i: nat)
    ensures i <= |s|
    ensures forall j :: 0 <= j < i ==> s[j] != '=' && s[j] != '!'
    ensures i < |s| ==> s[i] == '=' || s[i] == '!'
  {
    if s == "" || s[0] == '=' || s[0] == '!' then 0 else 1 + OperatorIndex(s[1..])
  }

  /** Reads one requirement of the forms `k=v`, `k!=v`, `k` and `!k`; set-based forms are not read here. */
  function ParseRequirement(s: string): Option<LabelFilter> {
    if s == "" then None
    else if s[0] == '!' then
      if s != "!" && Plain(s[1..]) then Some(LabelFilter(s[1..], OperationDoesNotHave, "")) else None
    else
      var i := OperatorIndex(s);
      if i == 0 || !Plain(s[..i]) then None
      else if i == |s| then Some(LabelFilter(s, OperationHas, ""))
      else if s[i] == '=' && Plain(s[i + 1..]) then Some(LabelFilter(s[..i], OperationEqual, s[i + 1..]))
      else if s[i] == '!' && i + 1 < |s| && s[i + 1] == '=' && Plain(s[i + 2..])
      then Some(LabelFilter(s[..i], OperationDifferent, s[i + 2..]))
      else None
  }

  /** How the API server judges the requirements that are not read above. */
  type OtherRequirement = (string, Labels) -> bool

  ghost predicate RequirementHolds(s: string, labels: Labels, other: OtherRequirement) {
    var parsed := ParseRequirement(s);
    if parsed.Some? then Holds(parsed.value, labels) else other(s, labels)
  }

  ghost predicate Matches(selector: string, labels: Labels, other: OtherRequirement) {
    AllHold(Requirements(selector), labels, other)
  }

  ghost predicate AllHold(requirements: seq<string>, labels: Labels, other: OtherRequirement) {
    forall i :: 0 <= i < |requirements| ==> RequirementHolds(requirements[i], labels, other)
  }

  /** The filters the printer is meant for: a known operation, a key, and no separator inside key or printed value. */
  ghost predicate WellFormed(f: LabelFilter) {
    && f.operation != OperationOther
    && f.key != "" && Plain(f.key)
    && (f.operation in {OperationEqual, OperationDifferent} ==> Plain(f.value))
  }

  ghost predicate AllWellFormed(filters: seq<LabelFilter>) {
    forall i :: 0 <= i < |filters| ==> WellFormed(filters[i])
  }

  ghost predicate AllFiltersHold(filters: seq<LabelFilter>, labels: Labels) {
    forall i :: 0 <= i < |filters| ==> Holds(filters[i], labels)
  }

  // Printing then reading

  predicate Uncut(s: string) {
    ',' !in s && '(' !in s && ')' !in s
  }

  lemma {:induction false} UncutIsOneRequirement(s: string, current: string)
    requires Uncut(s)
    ensures RequirementsFrom(s, 0, current) == [current + s]
  {
    if s == "" {
      assert current + s == current;
    } else {
      UncutIsOneRequirement(s[1..], current + [s[0]]);
      assert current + [s[0]] + s[1..] == current + s;
    }
  }

  /** A comma after text without parentheses separates whatever follows. */
  lemma {:induction false} CommaSeparates(s: string, rest: string, current: string)
    requires '(' !in s && ')' !in s
    ensures RequirementsFrom(s + "," + rest, 0, current) ==
              RequirementsFrom(s, 0, current) + RequirementsFrom(rest, 0, "")
    decreases |s|
  {
    if s == "" {
      assert s + "," + rest == "," + rest;
    } else {
      var all := s + "," + rest;
      assert all[0] == s[0] && all[1..] == s[1..] + "," + rest;
      if s[0] == ',' {
        CommaSeparates(s[1..], rest, "");
        assert [current] + (RequirementsFrom(s[1..], 0, "") + RequirementsFrom(rest, 0, ""))
            == [current] + RequirementsFrom(s[1..], 0, "") + RequirementsFrom(rest, 0, "");
      } else {
        CommaSeparates(s[1..], rest, current + [s[0]]);
      }
    }
  }

  lemma RenderedIsUncut(f: LabelFilter)
    requires WellFormed(f)
    ensures Rendered(f) != "" && Uncut(Rendered(f))
  {
  }

  ghost predicate RoundTrips(f: LabelFilter) {
    var parsed := ParseRequirement(Rendered(f));
    && parsed.Some? && parsed.value.key == f.key && parsed.value.operation == f.operation
    && (f.operation in {OperationEqual, OperationDifferent} ==> parsed.value.value == f.value)
  }

  lemma WellFormedRoundTrips(f: LabelFilter)
    requires WellFormed(f)
    ensures RoundTrips(f)
  {
    RenderedIsUncut(f);
    var r := Rendered(f);
    if f.operation == OperationDoesNotHave {
      assert r[1..] == f.key;
    } else {
      assert forall j :: 0 <= j < |f.key| ==> r[j] == f.key[j] && !IsSeparator(f.key[j]);
      var i := OperatorIndex(r);
      if f.operation != OperationHas {
        assert r[|f.key|] == '=' || r[|f.key|] == '!';
        assert i == |f.key|;
        assert r[..i] == f.key;
        assert f.operation == OperationEqual ==> r[i + 1..] == f.value;
        assert f.operation == OperationDifferent ==> r[i + 1] == '=' && r[i + 2..] == f.value;
      }
    }
  }

  /** A filter comes back from its printed form exactly when it is well-formed. */
  lemma RequirementRoundTrip(f: LabelFilter)
    ensures RoundTrips(f) <==> WellFormed(f)
  {
    if WellFormed(f) {
      WellFormedRoundTrips(f);
    }
  }

  lemma AppendHolds(a: seq<string>, b: seq<string>, labels: Labels, other: OtherRequirement)
    ensures AllHold(a + b, labels, other) <==> AllHold(a, labels, other) && AllHold(b, labels, other)
  {
    if AllHold(a + b, labels, other) {
      assert forall i :: 0 <= i < |a| ==> a[i] == (a + b)[i];
      assert forall i :: 0 <= i < |b| ==> b[i] == (a + b)[|a| + i];
    }
  }

  /** Appending with a comma conjoins, whatever text follows. */
  lemma ConjoinedMatches(a: string, b: string, labels: Labels, other: OtherRequirement)
    requires '(' !in a && ')' !in a
    ensures Matches(Conjoined(a, b), labels, other) <==> Matches(a, labels, other) && Matches(b, labels, other)
  {
    if a != "" && b != "" {
      CommaSeparates(a, b, "");
      AppendHolds(RequirementsFrom(a, 0, ""), RequirementsFrom(b, 0, ""), labels, other);
    }
  }

  lemma OneFilterMatches(f: LabelFilter, labels: Labels, other: OtherRequirement)
    requires WellFormed(f)
    ensures Matches(Rendered(f), labels, other) <==> Holds(f, labels)
  {
    RenderedIsUncut(f);
    UncutIsOneRequirement(Rendered(f), "");
    assert "" + Rendered(f) == Rendered(f);
    RequirementRoundTrip(f);
    assert RequirementHolds(Rendered(f), labels, other) <==> Holds(f, labels);
    assert Requirements(Rendered(f)) == [Rendered(f)] && Requirements(Rendered(f))[0] == Rendered(f);
  }

  lemma {:induction false} PrintedHasNoParentheses(filters: seq<LabelFilter>)
    requires AllWellFormed(filters)
    ensures '(' !in Printed(filters) && ')' !in Printed(filters)
  {
    if filters != [] {
      PrintedHasNoParentheses(filters[..|filters| - 1]);
      RenderedIsUncut(filters[|filters| - 1]);
    }
  }

  lemma PrintedConjoinsLast(filters: seq<LabelFilter>)
    requires filters != [] && AllWellFormed(filters)
    ensures var n := |filters| - 1; Printed(filters) == Conjoined(Printed(filters[..n]), Rendered(filters[n]))
  {
  }

  lemma LastFilterHolds(filters: seq<LabelFilter>, labels: Labels)
    requires filters != []
    ensures var n := |filters| - 1;
            AllFiltersHold(filters, labels) <==> AllFiltersHold(filters[..n], labels) && Holds(filters[n], labels)
  {
  }

  /** The printed filters match exactly the label maps on which every filter holds. */
  lemma {:induction false} PrintedMatches(filters: seq<LabelFilter>, labels: Labels, other: OtherRequirement)
    requires AllWellFormed(filters)
    ensures Matches(Printed(filters), labels, other) <==> AllFiltersHold(filters, labels)
  {
    if filters != [] {
      var n := |filters| - 1;
      PrintedMatches(filters[..n], labels, other);
      PrintedHasNoParentheses(filters[..n]);
      PrintedConjoinsLast(filters);
      ConjoinedMatches(Printed(filters[..n]), Rendered(filters[n]), labels, other);
      OneFilterMatches(filters[n], labels, other);
      LastFilterHolds(filters, labels);
    }
  }

  /**
   * The printed selector keeps the meaning: on every label map it matches exactly when every filter
   * holds and the standard selector, whatever its printed form, matches as well.
   */
  lemma SelectorMeansFiltersAndSelector(filters: seq<LabelFilter>, selector: string, labels: Labels,
                                        other: OtherRequirement)
    requires AllWellFormed(filters)
    ensures Matches(Conjoined(Printed(filters), selector), labels, other) <==>
              AllFiltersHold(filters, labels) && Matches(selector, labels, other)
  {
    PrintedMatches(filters, labels, other);
    PrintedHasNoParentheses(filters);
    ConjoinedMatches(Printed(filters), selector, labels, other);
  }
}
