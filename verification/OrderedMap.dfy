/** An insertion-ordered map with a hash index and dead entries left in place. */
module OrderedMap {
  datatype Entry = Entry(key: int, value: int, dead: bool)
  datatype Pair = Pair(key: int, value: int)

  // ---- the plain association list it stands for ------------------------------------------

  predicate Has(l: seq<Pair>, key: int) {
    exists i :: 0 <= i < |l| && l[i].key == key
  }

  /** Overwrite in place, or append. */
  function Put(l: seq<Pair>, key: int, value: int): seq<Pair> {
    if l == [] then [Pair(key, value)]
    else if l[0].key == key then [Pair(key, value)] + l[1..]
    else [l[0]] + Put(l[1..], key, value)
  }

  function Drop(l: seq<Pair>, key: int): seq<Pair> {
    if l == [] then []
    else if l[0].key == key then Drop(l[1..], key)
    else [l[0]] + Drop(l[1..], key)
  }

  function KeysOf(l: seq<Pair>): (r: seq<int>)
    ensures |r| == |l|
  {
    if l == [] then [] else [l[0].key] + KeysOf(l[1..])
  }

  predicate Distinct(l: seq<Pair>) {
    forall i, j :: 0 <= i < j < |l| ==> l[i].key != l[j].key
  }

  /** Overwriting keeps every key where it is; a new key goes to the end. */
  lemma {:induction false} PutKeepsPlaces(l: seq<Pair>, key: int, value: int)
    ensures KeysOf(Put(l, key, value)) == if Has(l, key) then KeysOf(l) else KeysOf(l) + [key]
  {
    if l != [] {
      assert l[0].key == key ==> Has(l, key);
      if l[0].key != key {
        PutKeepsPlaces(l[1..], key, value);
        HasTail(l, key);
        assert ([l[0]] + Put(l[1..], key, value))[1..] == Put(l[1..], key, value);
      } else {
        assert ([Pair(key, value)] + l[1..])[1..] == l[1..];
      }
    }
  }

  lemma HasTail(l: seq<Pair>, key: int)
    requires l != [] && l[0].key != key
    ensures Has(l, key) <==> Has(l[1..], key)
  {
    if i :| 0 <= i < |l| && l[i].key == key {
      assert l[1..][i - 1].key == key;
    }
    if i :| 0 <= i < |l[1..]| && l[1..][i].key == key {
      assert l[i + 1].key == key;
    }
  }

  lemma {:induction false} DropForgets(l: seq<Pair>, key: int)
    ensures !Has(Drop(l, key), key)
  {
    if l != [] {
      DropForgets(l[1..], key);
      if l[0].key != key {
        HasTail([l[0]] + Drop(l[1..], key), key);
        assert ([l[0]] + Drop(l[1..], key))[1..] == Drop(l[1..], key);
      }
    }
  }

  /** Removing a key and setting it again moves it to the end. */
  lemma RemoveThenSetMovesToEnd(l: seq<Pair>, key: int, value: int)
    ensures KeysOf(Put(Drop(l, key), key, value)) == KeysOf(Drop(l, key)) + [key]
  {
    DropForgets(l, key);
    PutKeepsPlaces(Drop(l, key), key, value);
  }

  // ---- what the entries mean -----------------------------------------------------------------

  /** The live entries in order. */
  function Live(es: seq<Entry>): seq<Pair> {
    if es == [] then []
    else
      var rest, last := Live(es[..|es| - 1]), es[|es| - 1];
      if last.dead then rest else rest + [Pair(last.key, last.value)]
  }

  lemma {:induction false} LiveSplits(a: seq<Entry>, b: seq<Entry>)
    ensures Live(a + b) == Live(a) + Live(b)
    decreases |b|
  {
    if b == [] {
      assert a + b == a;
    } else {
      assert (a + b)[..|a + b| - 1] == a + b[..|b| - 1];
      LiveSplits(a, b[..|b| - 1]);
    }
  }

  lemma LiveAround(pre: seq<Entry>, e: Entry, post: seq<Entry>)
    ensures Live(pre + ([e] + post)) == Live(pre) + ((if e.dead then [] else [Pair(e.key, e.value)]) + Live(post))
  {
    hide Live;
    LiveSplits(pre, [e] + post);
    LiveSplits([e], post);
    LiveOne(e);
  }

  lemma LiveOne(e: Entry)
    ensures Live([e]) == if e.dead then [] else [Pair(e.key, e.value)]
  {
    assert [e][..0] == [] && Live([]) == [];
  }

  /** A key that no live entry of a stretch has. */
  predicate Absent(es: seq<Entry>, key: int) {
    forall i :: 0 <= i < |es| ==> es[i].dead || es[i].key != key
  }

  lemma {:induction false} AbsentPut(es: seq<Entry>, key: int, value: int, tail: seq<Pair>)
    requires Absent(es, key)
    ensures Put(Live(es) + tail, key, value) == Live(es) + Put(tail, key, value)
    ensures Drop(Live(es) + tail, key) == Live(es) + Drop(tail, key)
    decreases |es|
  {
    if es == [] {
      assert [] + tail == tail;
    } else {
      var front, last := es[..|es| - 1], es[|es| - 1];
      if last.dead {
        AbsentPut(front, key, value, tail);
      } else {
        var p := Pair(last.key, last.value);
        assert Live(es) + tail == Live(front) + ([p] + tail);
        AbsentPut(front, key, value, [p] + tail);
        assert ([p] + tail)[1..] == tail;
      }
    }
  }

  /** The index names exactly the live entries. */
  ghost predicate Indexed(es: seq<Entry>, index: map<int, nat>) {
    && (forall k :: k in index ==> index[k] < |es| && es[index[k]].key == k && !es[index[k]].dead)
    && (forall i :: 0 <= i < |es| && !es[i].dead ==> es[i].key in index && index[es[i].key] == i)
  }

  lemma AbsentElsewhere(es: seq<Entry>, index: map<int, nat>, key: int)
    requires Indexed(es, index) && key in index
    ensures Absent(es[..index[key]], key) && Absent(es[index[key] + 1..], key)
  {
    var i := index[key];
    forall j | 0 <= j < |es| && j != i ensures es[j].dead || es[j].key != key {
    }
  }

  lemma SetInPlace(es: seq<Entry>, index: map<int, nat>, key: int, value: int)
    requires Indexed(es, index) && key in index
    ensures var after := es[index[key] := es[index[key]].(value := value)];
      Live(after) == Put(Live(es), key, value) && Indexed(after, index)
  {
    hide Live, Put, Absent;
    var i := index[key];
    AbsentElsewhere(es, index, key);
    PutBetween(es[..i], es[i], es[i + 1..], value);
    Parts(es, i, es[i].(value := value));
    ValueIsNotIndexed(es, index, i, value);
  }

  lemma Parts(es: seq<Entry>, i: nat, e: Entry)
    requires i < |es|
    ensures es == es[..i] + ([es[i]] + es[i + 1..]) && es[i := e] == es[..i] + ([e] + es[i + 1..])
  {
  }

  lemma ValueIsNotIndexed(es: seq<Entry>, index: map<int, nat>, i: nat, value: int)
    requires Indexed(es, index) && i < |es|
    ensures Indexed(es[i := es[i].(value := value)], index)
  {
    var after := es[i := es[i].(value := value)];
    assert |after| == |es| && forall j :: 0 <= j < |es| ==> after[j].key == es[j].key && after[j].dead == es[j].dead;
  }

  lemma PutBetween(pre: seq<Entry>, e: Entry, post: seq<Entry>, value: int)
    requires Absent(pre, e.key) && !e.dead
    ensures Live(pre + ([e.(value := value)] + post)) == Put(Live(pre + ([e] + post)), e.key, value)
  {
    hide Live;
    LiveAround(pre, e, post);
    LiveAround(pre, e.(value := value), post);
    var tail := [Pair(e.key, e.value)] + Live(post);
    assert tail[1..] == Live(post);
    AbsentPut(pre, e.key, value, tail);
  }

  lemma DropBetween(pre: seq<Entry>, e: Entry, post: seq<Entry>)
    requires Absent(pre, e.key) && Absent(post, e.key) && !e.dead
    ensures Live(pre + ([e.(dead := true)] + post)) == Drop(Live(pre + ([e] + post)), e.key)
  {
    hide Live;
    LiveAround(pre, e, post);
    LiveAround(pre, e.(dead := true), post);
    var tail := [Pair(e.key, e.value)] + Live(post);
    assert tail[1..] == Live(post);
    AbsentPut(pre, e.key, 0, tail);
    AbsentPut(post, e.key, 0, []);
    assert Live(post) + [] == Live(post) && [] + Live(post) == Live(post);
  }

  lemma SetAtEnd(es: seq<Entry>, index: map<int, nat>, key: int, value: int)
    requires Indexed(es, index) && key !in index
    ensures var after := es + [Entry(key, value, false)];
      Live(after) == Put(Live(es), key, value) && Indexed(after, index[key := |es|])
  {
    var e := Entry(key, value, false);
    LiveSplits(es, [e]);
    LiveOne(e);
    AbsentPut(es, key, value, []);
    assert Live(es) + [] == Live(es);
  }

  lemma KillEntry(es: seq<Entry>, index: map<int, nat>, key: int)
    requires Indexed(es, index) && key in index
    ensures var after := es[index[key] := es[index[key]].(dead := true)];
      Live(after) == Drop(Live(es), key) && Indexed(after, index - {key})
  {
    var i := index[key];
    var after := es[i := es[i].(dead := true)];
    AbsentElsewhere(es, index, key);
    DropBetween(es[..i], es[i], es[i + 1..]);
    Parts(es, i, after[i]);
  }

  lemma NothingToDrop(es: seq<Entry>, index: map<int, nat>, key: int)
    requires Indexed(es, index) && key !in index
    ensures Drop(Live(es), key) == Live(es)
  {
    AbsentPut(es, key, 0, []);
    assert Live(es) + [] == Live(es);
  }

  /** As many index entries as live ones. */
  lemma {:induction false} LiveCount(es: seq<Entry>, index: map<int, nat>)
    requires Indexed(es, index)
    ensures |index| == |Live(es)|
    decreases |es|
  {
    if es == [] {
      assert forall k :: k !in index;
      assert index == map[];
    } else {
      var front, last := es[..|es| - 1], es[|es| - 1];
      if last.dead {
        LiveCount(front, index);
      } else {
        var less := index - {last.key};
        LiveCount(front, less);
        assert index.Keys == less.Keys + {last.key};
      }
    }
  }

  lemma {:induction false} LiveDistinct(es: seq<Entry>, index: map<int, nat>)
    requires Indexed(es, index)
    ensures Distinct(Live(es)) && forall i :: 0 <= i < |Live(es)| ==> Live(es)[i].key in index
    decreases |es|
  {
    if es != [] {
      var front, last := es[..|es| - 1], es[|es| - 1];
      if last.dead {
        LiveDistinct(front, index);
      } else {
        LiveDistinct(front, index - {last.key});
      }
    }
  }

  // ---- the class ---------------------------------------------------------------------------------

  class OrderedMap {
    var entries: seq<Entry>
    var index: map<int, nat>

    ghost predicate Valid()
      reads this
    {
      Indexed(entries, index)
    }

    ghost function Contents(): seq<Pair>
      reads this
    {
      Live(entries)
    }

    constructor ()
      ensures Valid() && Contents() == []
    {
      entries, index := [], map[];
    }

    method Set(key: int, value: int)
      requires Valid()
      modifies this
      ensures Valid() && Contents() == Put(old(Contents()), key, value)
    {
      if key in index {
        SetInPlace(entries, index, key, value);
        entries := entries[index[key] := entries[index[key]].(value := value)];
        return;
      }
      SetAtEnd(entries, index, key, value);
      index := index[key := |entries|];
      entries := entries + [Entry(key, value, false)];
    }

    method Remove(key: int)
      requires Valid()
      modifies this
      ensures Valid() && Contents() == Drop(old(Contents()), key)
    {
      if key !in index {
        NothingToDrop(entries, index, key);
        return;
      }
      KillEntry(entries, index, key);
      entries := entries[index[key] := entries[index[key]].(dead := true)];
      index := index - {key};
    }

    method Keys() returns (result: seq<int>)
      requires Valid()
      ensures result == KeysOf(Contents())
    {
      result := [];
      for i := 0 to |entries|
        invariant result == KeysOf(Live(entries[..i]))
      {
        assert entries[..i + 1][..i] == entries[..i];
        if !entries[i].dead {
          KeysAppend(Live(entries[..i]), Pair(entries[i].key, entries[i].value));
          result := result + [entries[i].key];
        }
      }
      assert entries[..|entries|] == entries;
    }

    method Size() returns (n: nat)
      requires Valid()
      ensures n == |Contents()| && Distinct(Contents())
    {
      LiveCount(entries, index);
      LiveDistinct(entries, index);
      n := |index|;
    }
  }

  lemma {:induction false} KeysAppend(l: seq<Pair>, p: Pair)
    ensures KeysOf(l + [p]) == KeysOf(l) + [p.key]
  {
    if l == [] {
      assert [] + [p] == [p];
    } else {
      assert (l + [p])[1..] == l[1..] + [p];
      KeysAppend(l[1..], p);
    }
  }
}
