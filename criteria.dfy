/**
 * Evaluation criteria (src/App.jsx toggleCriterion, addCustomCriterion): the
 * student picks at most three criteria, from six suggestions or typed in.
 */
module Criteria {
  import opened Text

  /** A criterion object; `caption` is its `label` property (`label` is a Dafny keyword). */
  datatype Criterion = Criterion(id: string, caption: string, emoji: string)

  const MaxSelected := 3
  const CustomEmoji := "\U{2728}"
  const CustomPrefix := "custom_"

  /** The six built-in criteria offered on the selection screen. */
  const Suggested: seq<Criterion> := [
    Criterion("price", "\U{1F4B0} 가격", "\U{1F4B0}"),
    Criterion("design", "\U{1F3A8} 디자인", "\U{1F3A8}"),
    Criterion("environment", "\U{1F331} 환경", "\U{1F331}"),
    Criterion("performance", "\U{26A1} 성능", "\U{26A1}"),
    Criterion("size", "\U{1F4CF} 크기", "\U{1F4CF}"),
    Criterion("durability", "\U{1F4AA} 튼튼함", "\U{1F4AA}")
  ]

  /** `s.find(c => c.id === id)` finds something. */
  predicate HasId(s: seq<Criterion>, id: string)
  {
    exists i :: 0 <= i < |s| && s[i].id == id
  }

  /** `find` succeeds exactly when some selected criterion carries the id. */
  lemma HasIdIffMember(s: seq<Criterion>, id: string)
    ensures HasId(s, id) <==> exists x :: x in s && x.id == id
  {
  }

  predicate UniqueIds(s: seq<Criterion>)
  {
    forall i, j :: 0 <= i < j < |s| ==> s[i].id != s[j].id
  }

  /** `s.filter(c => c.id !== id)` */
  function Without(s: seq<Criterion>, id: string): (r: seq<Criterion>)
    ensures |r| <= |s|
  {
    if s == [] then []
    else if s[0].id == id then Without(s[1..], id)
    else [s[0]] + Without(s[1..], id)
  }

  /** The filter keeps exactly the criteria whose id differs. */
  lemma {:induction false} WithoutMembers(s: seq<Criterion>, id: string)
    ensures forall x :: x in Without(s, id) <==> x in s && x.id != id
  {
    if s != [] {
      WithoutMembers(s[1..], id);
      assert s == [s[0]] + s[1..];
    }
  }

  /** The selection after `toggleCriterion(c)`. */
  function Toggled(s: seq<Criterion>, c: Criterion): (r: seq<Criterion>)
    ensures |s| <= MaxSelected ==> |r| <= MaxSelected
    ensures HasId(r, c.id) <==> !HasId(s, c.id) && |s| < MaxSelected
    ensures forall x :: x in s && x.id != c.id ==> x in r
    ensures forall x :: x in r ==> x in s || x == c
  {
    if HasId(s, c.id) then
      WithoutMembers(s, c.id);
      Without(s, c.id)
    else if |s| < MaxSelected then
      assert (s + [c])[|s|].id == c.id;
      s + [c]
    else
      s
  }

  lemma {:induction false} WithoutAbsent(s: seq<Criterion>, id: string)
    requires !HasId(s, id)
    ensures Without(s, id) == s
  {
    if s != [] {
      assert !HasId(s[1..], id) by {
        forall i | 0 <= i < |s[1..]| ensures s[1..][i].id != id {
          assert s[1..][i] == s[i + 1];
        }
      }
      WithoutAbsent(s[1..], id);
      assert s == [s[0]] + s[1..];
    }
  }

  lemma {:induction false} WithoutKeepsUnique(s: seq<Criterion>, id: string)
    requires UniqueIds(s)
    ensures UniqueIds(Without(s, id))
  {
    if s != [] {
      var tail := Without(s[1..], id);
      assert UniqueIds(s[1..]) by {
        forall i, j | 0 <= i < j < |s[1..]| ensures s[1..][i].id != s[1..][j].id {
          assert s[1..][i] == s[i + 1] && s[1..][j] == s[j + 1];
        }
      }
      WithoutKeepsUnique(s[1..], id);
      WithoutMembers(s[1..], id);
      if s[0].id != id {
        forall j | 0 <= j < |tail| ensures tail[j].id != s[0].id {
          assert tail[j] in s[1..];
          var m :| 0 <= m < |s[1..]| && s[1..][m] == tail[j];
          assert s[m + 1] == tail[j];
        }
        var r := [s[0]] + tail;
        forall i, j | 0 <= i < j < |r| ensures r[i].id != r[j].id {
          if i == 0 {
            assert r[j] == tail[j - 1];
          } else {
            assert r[i] == tail[i - 1] && r[j] == tail[j - 1];
          }
        }
      }
    }
  }

  /** Filtering distributes over concatenation. */
  lemma {:induction false} WithoutAppend(a: seq<Criterion>, b: seq<Criterion>, id: string)
    ensures Without(a + b, id) == Without(a, id) + Without(b, id)
  {
    if a == [] {
      assert a + b == b;
    } else {
      assert (a + b)[0] == a[0] && (a + b)[1..] == a[1..] + b;
      WithoutAppend(a[1..], b, id);
    }
  }

  /** Filtering out an id held by one criterion only drops that criterion. */
  lemma WithoutSingle(before: seq<Criterion>, x: Criterion, after: seq<Criterion>)
    requires !HasId(before, x.id) && !HasId(after, x.id)
    ensures Without(before + [x] + after, x.id) == before + after
  {
    WithoutAppend(before + [x], after, x.id);
    WithoutAppend(before, [x], x.id);
    assert Without([x], x.id) == [];
    WithoutAbsent(before, x.id);
    WithoutAbsent(after, x.id);
  }

  /** In a list with unique ids, the id at `p` occurs nowhere else. */
  lemma UniqueSplit(s: seq<Criterion>, p: int)
    requires UniqueIds(s) && 0 <= p < |s|
    ensures !HasId(s[..p], s[p].id) && !HasId(s[p + 1..], s[p].id)
  {
  }

  /** Removing a criterion keeps the others in their original order. */
  lemma WithoutAt(s: seq<Criterion>, p: int)
    requires UniqueIds(s) && 0 <= p < |s|
    ensures Without(s, s[p].id) == s[..p] + s[p + 1..]
  {
    UniqueSplit(s, p);
    assert s == s[..p] + [s[p]] + s[p + 1..];
    WithoutSingle(s[..p], s[p], s[p + 1..]);
  }

  /** Toggling a selected criterion removes it and keeps the rest in order. */
  lemma ToggleRemovesInPlace(s: seq<Criterion>, c: Criterion, p: int)
    requires UniqueIds(s) && 0 <= p < |s| && s[p].id == c.id
    ensures Toggled(s, c) == s[..p] + s[p + 1..]
  {
    WithoutAt(s, p);
  }

  /** Toggling an unselected criterion while there is room appends it. */
  lemma ToggleAppends(s: seq<Criterion>, c: Criterion)
    requires !HasId(s, c.id) && |s| < MaxSelected
    ensures Toggled(s, c) == s + [c]
  {
  }

  /** With three selected, toggling an unselected criterion changes nothing. */
  lemma ToggleWhenFullIsNoop(s: seq<Criterion>, c: Criterion)
    requires !HasId(s, c.id) && |s| >= MaxSelected
    ensures Toggled(s, c) == s
  {
  }

  /** Toggling keeps the selected ids unique. */
  lemma ToggleKeepsUnique(s: seq<Criterion>, c: Criterion)
    requires UniqueIds(s)
    ensures UniqueIds(Toggled(s, c))
  {
    if HasId(s, c.id) {
      WithoutKeepsUnique(s, c.id);
    }
  }

  /** Toggling the same unselected criterion twice restores the selection. */
  lemma ToggleTwiceRestores(s: seq<Criterion>, c: Criterion)
    requires !HasId(s, c.id)
    ensures Toggled(Toggled(s, c), c) == s
  {
    if |s| < MaxSelected {
      assert (s + [c])[|s|].id == c.id;
      WithoutSingle(s, c, []);
      assert s + [c] + [] == s + [c] && s + [] == s;
    }
  }

  /** The id `custom_${Date.now()}` of a criterion typed in at clock reading `now`. */
  function CustomId(now: nat): (r: string)
    ensures |r| > |CustomPrefix| && r[..|CustomPrefix|] == CustomPrefix
  {
    CustomPrefix + Decimal(now)
  }

  /** Custom ids taken at different clock readings differ. */
  lemma CustomIdInjective(a: nat, b: nat)
    requires CustomId(a) == CustomId(b)
    ensures a == b
  {
    assert Decimal(a) == CustomId(a)[|CustomPrefix|..];
    assert Decimal(b) == CustomId(b)[|CustomPrefix|..];
    DecimalInjective(a, b);
  }

  /** A custom id never equals the id of a suggested criterion. */
  lemma CustomIdNotSuggested(now: nat)
    ensures !HasId(Suggested, CustomId(now))
  {
    var id := CustomId(now);
    assert id[0] == 'c';
    forall i | 0 <= i < |Suggested| ensures Suggested[i].id != id {
      assert Suggested[i].id[0] != 'c';
    }
  }

  /**
   * The selection after `addCustomCriterion()` with `text` in the input field:
   * a non-blank text is appended, untrimmed, while there is room.
   */
  function WithCustom(s: seq<Criterion>, text: string, now: nat): (r: seq<Criterion>)
    ensures |s| <= MaxSelected ==> |r| <= MaxSelected
    ensures r == s || r == s + [Criterion(CustomId(now), text, CustomEmoji)]
    ensures r != s <==> !IsBlank(text) && |s| < MaxSelected
  {
    if Filled(text) && |s| < MaxSelected then s + [Criterion(CustomId(now), text, CustomEmoji)] else s
  }

  /** Adding a custom criterion with a fresh id keeps the selected ids unique. */
  lemma WithCustomKeepsUnique(s: seq<Criterion>, text: string, now: nat)
    requires UniqueIds(s) && !HasId(s, CustomId(now))
    ensures UniqueIds(WithCustom(s, text, now))
  {
  }
}
