/** The multiple-choice answer buffer: a list of option labels that the click handler and the
    checkbox callback update with `contains`, `remove` (first occurrence) and `add` (append). */
module Answers {

  /** No label occurs twice: the list is being used as a set. */
  predicate NoDup(s: seq<string>)
  {
    forall i, j :: 0 <= i < j < |s| ==> s[i] != s[j]
  }

  /** `MutableList.remove(x)`: drops the first occurrence of `x`, if any. */
  function RemoveFirst(s: seq<string>, x: string): (r: seq<string>)
    ensures x !in s ==> r == s
    ensures x in s ==> |r| == |s| - 1 && multiset(r) == multiset(s) - multiset{x}
  {
    if s == [] then []
    else if s[0] == x then (assert s == [s[0]] + s[1..]; s[1..])
    else (assert s == [s[0]] + s[1..]; [s[0]] + RemoveFirst(s[1..], x))
  }

  /** Removal takes out exactly the first occurrence and keeps the order of the rest. */
  lemma {:induction false} RemoveFirstAt(s: seq<string>, x: string, i: int)
    requires 0 <= i < |s| && s[i] == x && x !in s[..i]
    ensures RemoveFirst(s, x) == s[..i] + s[i + 1..]
  {
    if i > 0 {
      assert s[1..][..i - 1] == s[1..i];
      assert s[..i] == [s[0]] + s[1..i];
      RemoveFirstAt(s[1..], x, i - 1);
      assert s[1..][i..] == s[i + 1..];
    }
  }

  /** The row click handler: remove the option if it is selected, otherwise add it. */
  function Toggled(s: seq<string>, x: string): (r: seq<string>)
    ensures x in s ==> multiset(r) == multiset(s) - multiset{x}
    ensures x !in s ==> r == s + [x]
  {
    if x in s then RemoveFirst(s, x) else s + [x]
  }

  /** The checkbox callback: add when the box becomes checked, remove when unchecked. */
  function CheckedChange(s: seq<string>, x: string, isChecked: bool): (r: seq<string>)
    ensures isChecked ==> r == s + [x]
    ensures !isChecked ==> multiset(r) == multiset(s) - multiset{x}
  {
    if isChecked then s + [x] else RemoveFirst(s, x)
  }

  /** The checkbox reports the opposite of its shown state (`contains`), and then it does
      exactly what the row click does. */
  lemma CheckboxAgreesWithClick(s: seq<string>, x: string)
    ensures CheckedChange(s, x, x !in s) == Toggled(s, x)
  {
  }

  /** Called with `isChecked` set for an option already in the list, the callback appends
      a second copy: the list stops being a set. */
  lemma CheckedOnSelectedDuplicates(s: seq<string>, x: string)
    requires x in s
    ensures !NoDup(CheckedChange(s, x, true))
  {
    var i :| 0 <= i < |s| && s[i] == x;
    var r := CheckedChange(s, x, true);
    assert r[i] == r[|s|];
  }

  /** On a duplicate-free list, toggling flips the option's membership. */
  lemma ToggleFlipsMembership(s: seq<string>, x: string)
    requires NoDup(s)
    ensures (x in Toggled(s, x)) <==> (x !in s)
  {
    if x in s {
      var i :| 0 <= i < |s| && s[i] == x;
      assert x !in s[..i];
      RemoveFirstAt(s, x, i);
      assert x !in s[i + 1..];
    }
  }

  /** Toggling one option never changes whether any other option is selected. */
  lemma ToggleKeepsOthers(s: seq<string>, x: string, y: string)
    requires y != x
    ensures (y in Toggled(s, x)) <==> (y in s)
  {
    var r := Toggled(s, x);
    if x in s {
      assert multiset(r)[y] == multiset(s)[y];
    }
  }

  /** Deleting one element keeps a duplicate-free list duplicate-free. */
  lemma DropKeepsNoDup(s: seq<string>, i: int)
    requires NoDup(s) && 0 <= i < |s|
    ensures NoDup(s[..i] + s[i + 1..])
  {
  }

  /** Toggling keeps a duplicate-free list duplicate-free. */
  lemma ToggleKeepsNoDup(s: seq<string>, x: string)
    requires NoDup(s)
    ensures NoDup(Toggled(s, x))
  {
    if x in s {
      var i :| 0 <= i < |s| && s[i] == x;
      RemoveFirstAt(s, x, i);
      DropKeepsNoDup(s, i);
    }
  }

  /** Selecting an option and then deselecting it restores the list exactly. */
  lemma SelectThenDeselect(s: seq<string>, x: string)
    requires x !in s
    ensures Toggled(Toggled(s, x), x) == s
  {
    var t := s + [x];
    assert t[..|s|] == s;
    RemoveFirstAt(t, x, |s|);
  }

  /** Deselecting an option and then selecting it again restores the same selection, with
      the option moved to the end. */
  lemma DeselectThenSelect(s: seq<string>, x: string)
    requires NoDup(s) && x in s
    ensures multiset(Toggled(Toggled(s, x), x)) == multiset(s)
  {
    ToggleFlipsMembership(s, x);
  }
}
