/** Small things several modules share: optional values, one element of a set, loops over sets, lists without repeats, and
    stripping white space. */
module Basics {

  datatype Option<T> = None | Some(value: T)

  predicate Distinct(q: seq<int>) {
    forall i, j :: 0 <= i < j < |q| ==> q[i] != q[j]
  }

  /** Some element of a set. */
  method Pick<T(==)>(s: set<T>) returns (x: T)
    requires s != {}
    ensures x in s
  {
    x :| x in s;
  }

  lemma {:induction false} Member<T>(s: set<T>) returns (x: T)
    requires s != {}
    ensures x in s
  {
    x :| x in s;
  }

  lemma {:induction false} NoneLeft<T>(all: set<T>, rest: set<T>)
    requires rest == {}
    ensures all - rest == all
  {
  }

  lemma {:induction false} Taken<T>(all: set<T>, rest: set<T>, x: T)
    requires x in rest && rest <= all
    ensures all - (rest - {x}) == (all - rest) + {x} && rest - {x} < rest
  {
  }

  predicate IsSpace(c: char) {
    c == ' ' || c == '\t' || c == '\n' || c == '\r'
  }

  function StripLeft(s: string): string {
    if s != [] && IsSpace(s[0]) then StripLeft(s[1..]) else s
  }

  function StripRight(s: string): string {
    if s != [] && IsSpace(s[|s|-1]) then StripRight(s[..|s|-1]) else s
  }

  function Strip(s: string): string {
    StripRight(StripLeft(s))
  }

  lemma {:induction false} StripLeftIs(s: string) returns (i: nat)
    ensures i <= |s| && StripLeft(s) == s[i..] && (forall k :: 0 <= k < i ==> IsSpace(s[k])) && (i < |s| ==> !IsSpace(s[i]))
  {
    if s != [] && IsSpace(s[0]) {
      var j := StripLeftIs(s[1..]);
      i := j + 1;
      assert s[1..][j..] == s[i..];
    } else {
      i := 0;
    }
  }

  lemma {:induction false} StripRightIs(s: string) returns (j: nat)
    ensures j <= |s| && StripRight(s) == s[..j] && (forall k :: j <= k < |s| ==> IsSpace(s[k])) && (j > 0 ==> !IsSpace(s[j - 1]))
  {
    if s != [] && IsSpace(s[|s|-1]) {
      j := StripRightIs(s[..|s|-1]);
      assert s[..|s|-1][..j] == s[..j];
    } else {
      j := |s|;
      assert s[..j] == s;
    }
  }

  /** What is stripped is blank, and what is left neither starts nor ends with a blank. */
  lemma {:induction false} StripIs(s: string)
    ensures exists i, j :: 0 <= i <= j <= |s| && Strip(s) == s[i..j] && (forall k :: 0 <= k < i || j <= k < |s| ==> s[k] in " \t\n\r")
    ensures Strip(s) != "" ==> Strip(s)[0] !in " \t\n\r" && Strip(s)[|Strip(s)| - 1] !in " \t\n\r"
  {
    var i := StripLeftIs(s);
    var j := StripRightIs(s[i..]);
    assert Strip(s) == s[i..][..j] == s[i..i + j];
  }
}
