/** Parsing of service account user names. */
module ServiceAccountUsername {
  import opened Wrappers

  const PREFIX := "system:serviceaccount:"

  datatype ServiceAccountInfo = ServiceAccountInfo(namespace: string, name: string)

  function IndexOf(s: string, c: char): (i: nat)
    ensures i <= |s|
    ensures c !in s[..i]
    ensures i < |s| ==> s[i] == c
  {
    if s == "" || s[0] == c then 0
    else
      var i := 1 + IndexOf(s[1..], c);
      assert s[..i] == [s[0]] + s[1..][..i - 1];
      i
  }

  function ParseServiceAccountUsername(username: string): Option<ServiceAccountInfo> {
    if !(PREFIX <= username) then None
    else
      var remainder := username[|PREFIX|..];
      var i := IndexOf(remainder, ':');
      if i == |remainder| then None
      else Some(ServiceAccountInfo(remainder[..i], remainder[i + 1..]))
  }

  /**
   * The parse is exactly the inverse of the format: a name is accepted as (namespace, name) if and only
   * if it is the prefix, the namespace, a colon and the name, with no colon in the namespace.
   */
  lemma ParseExactlyInvertsFormat(username: string, namespace: string, name: string)
    ensures ParseServiceAccountUsername(username) == Some(ServiceAccountInfo(namespace, name)) <==>
              username == PREFIX + namespace + ":" + name && ':' !in namespace
  {
    if username == PREFIX + namespace + ":" + name && ':' !in namespace {
      var remainder := username[|PREFIX|..];
      assert remainder == namespace + ":" + name;
      var i := IndexOf(remainder, ':');
      assert remainder[|namespace|] == ':' && i <= |namespace|;
      assert i == |namespace|;
      assert remainder[..i] == namespace && remainder[i + 1..] == name;
      assert PREFIX <= username;
    }
  }
}
