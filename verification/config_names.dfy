/** Names in configuration trees: what counts as blank, and which siblings may stand together. */
module ConfigNames {
  import ConfigMerge

  predicate Space(c: char) {
    || '\t' <= c <= '\r' || c == ' ' || c == '\U{85}' || c == '\U{A0}' || c == '\U{1680}' || '\U{2000}' <= c <= '\U{200A}'
    || c == '\U{2028}' || c == '\U{2029}' || c == '\U{202F}' || c == '\U{205F}' || c == '\U{3000}'
  }

  function Trim(s: string): (t: string)
    ensures t == "" <==> forall i | 0 <= i < |s| :: Space(s[i])
    ensures t != "" ==> !Space(t[0]) && !Space(t[|t| - 1])
  {
    if s == "" then ""
    else if Space(s[0]) then
      assert forall i | 0 < i < |s| :: s[i] == s[1..][i - 1];
      Trim(s[1..])
    else if Space(s[|s| - 1]) then Trim(s[..|s| - 1])
    else s
  }

  /** No name is blank and no two differ only in case. */
  predicate Apart(names: set<string>) {
    && (forall n | n in names :: Trim(n) != "")
    && (forall a, b | a in names && b in names && ConfigMerge.EqualFold(a, b) :: a == b)
  }

  /** The check of one object's own names. */
  method NamesApart(names: set<string>) returns (ok: bool)
    ensures ok <==> Apart(names)
  {
    var left, seen: set<string> := names, {};
    while left != {}
      invariant left <= names && seen == names - left && Apart(seen)
      decreases left
    {
      var name :| name in left;
      if Trim(name) == "" || exists previous :: previous in seen && ConfigMerge.EqualFold(previous, name) {
        return false;
      }
      left, seen := left - {name}, seen + {name};
    }
    return true;
  }
}
