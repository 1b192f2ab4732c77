/**
 * A directory as a map from file names to contents, and a batch of writes
 * applied to it one after another.
 */
module Directory {
  import opened Strings

  /** `dir` after writing each `(name, content)` of `writes`, first to last. */
  function Overlay<V>(dir: map<string, V>, writes: seq<(string, V)>): map<string, V>
    decreases |writes|
  {
    if writes == [] then dir else Overlay(dir[writes[0].0 := writes[0].1], writes[1..])
  }

  /** The names `writes` writes to. */
  function Names<V>(writes: seq<(string, V)>): set<string> {
    set i | 0 <= i < |writes| :: writes[i].0
  }

  /** No name is written twice. */
  predicate NamesDistinct<V>(writes: seq<(string, V)>) {
    forall i, j :: 0 <= i < j < |writes| ==> writes[i].0 != writes[j].0
  }

  lemma NamesCons<V>(writes: seq<(string, V)>)
    requires writes != []
    ensures Names(writes) == {writes[0].0} + Names(writes[1..])
  {
    forall n | n in Names(writes) ensures n in {writes[0].0} + Names(writes[1..]) {
      var i :| 0 <= i < |writes| && writes[i].0 == n;
      if i > 0 {
        assert writes[1..][i - 1] == writes[i];
      }
    }
    forall n | n in Names(writes[1..]) ensures n in Names(writes) {
      var i :| 0 <= i < |writes[1..]| && writes[1..][i].0 == n;
      assert writes[i + 1] == writes[1..][i];
    }
  }

  /** The directory afterwards holds its old files and the written ones. */
  lemma {:induction false} OverlayKeys<V>(dir: map<string, V>, writes: seq<(string, V)>)
    ensures Overlay(dir, writes).Keys == dir.Keys + Names(writes)
    decreases |writes|
  {
    if writes != [] {
      OverlayKeys(dir[writes[0].0 := writes[0].1], writes[1..]);
      NamesCons(writes);
    }
  }

  /** A file under a name that is not written keeps its content. */
  lemma {:induction false} OverlayOutside<V>(dir: map<string, V>, writes: seq<(string, V)>, name: string)
    requires name !in Names(writes)
    ensures name in Overlay(dir, writes) <==> name in dir
    ensures name in dir ==> Overlay(dir, writes)[name] == dir[name]
    decreases |writes|
  {
    if writes != [] {
      NamesCons(writes);
      OverlayOutside(dir[writes[0].0 := writes[0].1], writes[1..], name);
    }
  }

  /** With distinct names, every written name holds what was written to it. */
  lemma {:induction false} OverlayLookup<V>(dir: map<string, V>, writes: seq<(string, V)>, i: nat)
    requires NamesDistinct(writes) && i < |writes|
    ensures writes[i].0 in Overlay(dir, writes) && Overlay(dir, writes)[writes[i].0] == writes[i].1
    decreases |writes|
  {
    var dir' := dir[writes[0].0 := writes[0].1];
    if i == 0 {
      assert writes[0].0 !in Names(writes[1..]) by {
        forall n | n in Names(writes[1..]) ensures n != writes[0].0 {
          var j :| 0 <= j < |writes[1..]| && writes[1..][j].0 == n;
          assert writes[j + 1] == writes[1..][j];
        }
      }
      OverlayOutside(dir', writes[1..], writes[0].0);
    } else {
      assert writes[1..][i - 1] == writes[i];
      assert NamesDistinct(writes[1..]) by {
        forall a, b | 0 <= a < b < |writes[1..]| ensures writes[1..][a].0 != writes[1..][b].0 {
          assert writes[1..][a] == writes[a + 1] && writes[1..][b] == writes[b + 1];
        }
      }
      OverlayLookup(dir', writes[1..], i - 1);
    }
  }

  /** Writing one more file is one more map update. */
  lemma {:induction false} OverlaySnoc<V>(dir: map<string, V>, writes: seq<(string, V)>, w: (string, V))
    ensures Overlay(dir, writes + [w]) == Overlay(dir, writes)[w.0 := w.1]
    decreases |writes|
  {
    if writes == [] {
      assert [] + [w] == [w];
      assert [w][1..] == [];
    } else {
      assert (writes + [w])[1..] == writes[1..] + [w];
      OverlaySnoc(dir[writes[0].0 := writes[0].1], writes[1..], w);
    }
  }

  /** Twelve writes spelled out as twelve updates. */
  lemma OverlayTwelve<V>(dir: map<string, V>, writes: seq<(string, V)>)
    requires |writes| == 12
    ensures Overlay(dir, writes) ==
      dir[writes[0].0 := writes[0].1][writes[1].0 := writes[1].1][writes[2].0 := writes[2].1]
         [writes[3].0 := writes[3].1][writes[4].0 := writes[4].1][writes[5].0 := writes[5].1]
         [writes[6].0 := writes[6].1][writes[7].0 := writes[7].1][writes[8].0 := writes[8].1]
         [writes[9].0 := writes[9].1][writes[10].0 := writes[10].1][writes[11].0 := writes[11].1]
  {
    assert writes[..0] == [];
    assert writes[..1] == writes[..0] + [writes[0]];
    OverlaySnoc(dir, writes[..0], writes[0]);
    assert writes[..2] == writes[..1] + [writes[1]];
    OverlaySnoc(dir, writes[..1], writes[1]);
    assert writes[..3] == writes[..2] + [writes[2]];
    OverlaySnoc(dir, writes[..2], writes[2]);
    assert writes[..4] == writes[..3] + [writes[3]];
    OverlaySnoc(dir, writes[..3], writes[3]);
    assert writes[..5] == writes[..4] + [writes[4]];
    OverlaySnoc(dir, writes[..4], writes[4]);
    assert writes[..6] == writes[..5] + [writes[5]];
    OverlaySnoc(dir, writes[..5], writes[5]);
    assert writes[..7] == writes[..6] + [writes[6]];
    OverlaySnoc(dir, writes[..6], writes[6]);
    assert writes[..8] == writes[..7] + [writes[7]];
    OverlaySnoc(dir, writes[..7], writes[7]);
    assert writes[..9] == writes[..8] + [writes[8]];
    OverlaySnoc(dir, writes[..8], writes[8]);
    assert writes[..10] == writes[..9] + [writes[9]];
    OverlaySnoc(dir, writes[..9], writes[9]);
    assert writes[..11] == writes[..10] + [writes[10]];
    OverlaySnoc(dir, writes[..10], writes[10]);
    assert writes[..12] == writes[..11] + [writes[11]];
    OverlaySnoc(dir, writes[..11], writes[11]);
    assert writes[..12] == writes;
  }

  /** The names in the order they are written. */
  function NameSeq<V>(writes: seq<(string, V)>): seq<string> {
    seq(|writes|, i requires 0 <= i < |writes| => writes[i].0)
  }

  /** Writing into a directory replaces the files with those names and keeps the rest. */
  lemma {:induction false} OverlayUnion<V>(dir: map<string, V>, writes: seq<(string, V)>)
    ensures Overlay(dir, writes) == dir + Overlay(map[], writes)
    decreases |writes|
  {
    if writes == [] {
      assert dir + map[] == dir;
    } else {
      var (n, v) := writes[0];
      OverlayUnion(dir[n := v], writes[1..]);
      OverlayUnion(map[n := v], writes[1..]);
      assert map[][n := v] == map[n := v];
      assert dir[n := v] + Overlay(map[], writes[1..]) == dir + (map[n := v] + Overlay(map[], writes[1..]));
    }
  }

  /** Writing the same batch again changes nothing. */
  lemma OverlayIdempotent<V>(dir: map<string, V>, writes: seq<(string, V)>)
    requires NamesDistinct(writes)
    ensures Overlay(Overlay(dir, writes), writes) == Overlay(dir, writes)
  {
    var once := Overlay(dir, writes);
    var twice := Overlay(once, writes);
    OverlayKeys(dir, writes);
    OverlayKeys(once, writes);
    forall n | n in once ensures twice[n] == once[n] {
      if n in Names(writes) {
        var i :| 0 <= i < |writes| && writes[i].0 == n;
        OverlayLookup(dir, writes, i);
        OverlayLookup(once, writes, i);
      } else {
        OverlayOutside(once, writes, n);
      }
    }
  }

  /** Distinct names are as many as the writes. */
  lemma NamesCount<V>(writes: seq<(string, V)>)
    requires NamesDistinct(writes)
    ensures |Names(writes)| == |writes|
  {
    var names := NameSeq(writes);
    assert |names| == |writes|;
    assert Names(writes) == set x | x in names by {
      forall x | x in names ensures x in Names(writes) {
        var i :| 0 <= i < |names| && names[i] == x;
        assert writes[i].0 == x;
      }
      forall i | 0 <= i < |writes| ensures writes[i].0 in names {
        assert names[i] == writes[i].0;
      }
    }
    DistinctCardinality(names);
  }
}
