// Optional values, standing for nullable columns and for Python's None, and the size of subsets.
module Wrappers {

  datatype Option<+T> = None | Some(value: T) {
    function GetOr(default: T): T {
      match this
      case Some(v) => v
      case None => default
    }
  }

  lemma SubsetSize<T>(s: set<T>, s': set<T>)
    requires s' <= s
    ensures |s'| <= |s| && (s' != s ==> |s'| < |s|)
  {
    assert s == s' + (s - s');
    if s' != s { var x :| x in s - s'; assert |s - s'| > 0; }
  }
}
