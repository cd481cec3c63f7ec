/**
 * The nested dict/list documents that the scoring configuration is built from
 * (JSON-like values in the sense of RFC 8259, except that a dict key may be an
 * int as well as a str, as in Python), and what a chain of Python subscripts
 * `doc[k1][k2]...[kn]` reads and what `doc[k1]...[kn] = x` writes.
 */
module Document {
  import opened Wrappers

  /** A Python subscript: a str key, or an int that indexes a list or keys a dict. */
  datatype Key = Field(name: string) | At(index: int)

  type Path = seq<Key>

  /** Numbers are carried, never computed on: an int, or a float kept as a real. */
  datatype Value =
    | Null
    | Bool(b: bool)
    | Int(i: int)
    | Float(f: real)
    | Str(s: string)
    | List(items: seq<Value>)
    | Obj(fields: map<Key, Value>)

  /** `v[k]` on a dict or a list: None where the key or index is missing, and on any other value, which the model never subscripts. */
  function Child(v: Value, k: Key): Option<Value>
  {
    match v
    case Obj(m) => if k in m then Some(m[k]) else None
    case List(xs) => if k.At? && 0 <= k.index < |xs| then Some(xs[k.index]) else None
    case _ => None
  }

  /** `v[k] = x`, on a copy: a dict gains or replaces the key, a list replaces an existing slot. */
  function Replace(v: Value, k: Key, x: Value): Option<Value>
  {
    match v
    case Obj(m) => Some(Obj(m[k := x]))
    case List(xs) => if k.At? && 0 <= k.index < |xs| then Some(List(xs[k.index := x])) else None
    case _ => None
  }

  /** `v[p[0]][p[1]]...`: the value the subscript chain reaches, if every step succeeds. */
  function Get(v: Value, p: Path): Option<Value>
    decreases |p|
  {
    if p == [] then Some(v)
    else
      match Child(v, p[0])
      case None => None
      case Some(c) => Get(c, p[1..])
  }

  /**
   * The document after `v[p[0]]...[p[n-1]] = x`: every step but the last must
   * read an existing child, the last one assigns. On the empty path the whole
   * document is replaced.
   */
  function Put(v: Value, p: Path, x: Value): Option<Value>
    decreases |p|
  {
    if p == [] then Some(x)
    else if |p| == 1 then Replace(v, p[0], x)
    else
      match Child(v, p[0])
      case None => None
      case Some(c) =>
        match Put(c, p[1..], x)
        case None => None
        case Some(c') => Replace(v, p[0], c')
  }

  predicate IsPrefix(p: Path, q: Path)
  {
    |p| <= |q| && q[..|p|] == p
  }

  /** Neither path lies on the way to the other, so writing one leaves the other alone. */
  predicate Disjoint(p: Path, q: Path)
  {
    !IsPrefix(p, q) && !IsPrefix(q, p)
  }

  /** The dict that the path's last subscript assigns into exists. */
  predicate ParentIsDict(v: Value, p: Path)
  {
    p != [] && Get(v, p[..|p| - 1]).Some? && Get(v, p[..|p| - 1]).value.Obj?
  }

  predicate IsDictAt(v: Value, q: Path)
  {
    Get(v, q).Some? && Get(v, q).value.Obj?
  }

  /** The keys of the dict a path reaches, empty where there is none. */
  function KeysAt(v: Value, q: Path): set<Key>
  {
    var d := Get(v, q);
    if d.Some? && d.value.Obj? then d.value.fields.Keys else {}
  }

  /** The key an assignment to p adds to the dict at q: its last key, when q is p's parent. */
  function AddedKey(q: Path, p: Path): set<Key>
  {
    if |p| == |q| + 1 && p[..|q|] == q then {p[|q|]} else {}
  }

  /** One nested subscript assignment. */
  datatype Write = Write(path: Path, value: Value)

  /** The assignments run one after another, as the statements of a Python block. */
  function ApplyWrites(v: Value, ws: seq<Write>): Option<Value>
    decreases |ws|
  {
    if ws == [] then Some(v)
    else
      match Put(v, ws[0].path, ws[0].value)
      case None => None
      case Some(v') => ApplyWrites(v', ws[1..])
  }

  predicate PairwiseDisjoint(ws: seq<Write>)
  {
    forall i, j | 0 <= i < j < |ws| :: Disjoint(ws[i].path, ws[j].path)
  }

  predicate DictParents(v: Value, ws: seq<Write>)
  {
    forall i | 0 <= i < |ws| :: ParentIsDict(v, ws[i].path)
  }

  /** The keys a block of assignments adds to the dict at q. */
  function BlockKeys(q: Path, ws: seq<Write>): set<Key>
    decreases |ws|
  {
    if ws == [] then {} else AddedKey(q, ws[0].path) + BlockKeys(q, ws[1..])
  }

  lemma AddedChildKey(q: Path, k: Key)
    ensures AddedKey(q, q + [k]) == {k}
  {
    assert (q + [k])[..|q|] == q;
  }

  lemma NoAddedKey(q: Path, p: Path)
    requires |p| != |q| + 1 || p[..|q|] != q
    ensures AddedKey(q, p) == {}
  {
  }

  /** BlockKeys unrolled at position i. */
  lemma BlockKeysFrom(q: Path, ws: seq<Write>, i: nat)
    requires i < |ws|
    ensures BlockKeys(q, ws[i..]) == AddedKey(q, ws[i].path) + BlockKeys(q, ws[i + 1..])
  {
    assert ws[i..][1..] == ws[i + 1..];
  }

  /** A write of a child of q adds that child's key to the keys the block adds at q. */
  lemma ChildStep(q: Path, ws: seq<Write>, i: nat, k: Key)
    requires i < |ws| && ws[i].path == q + [k]
    ensures BlockKeys(q, ws[i..]) == {k} + BlockKeys(q, ws[i + 1..])
  {
    BlockKeysFrom(q, ws, i);
    AddedChildKey(q, k);
  }

  /** A write whose path leaves q at position d adds no key at q. */
  lemma AwayStep(q: Path, ws: seq<Write>, i: nat, d: nat)
    requires i < |ws| && d < |q| && d < |ws[i].path| && ws[i].path[d] != q[d]
    ensures BlockKeys(q, ws[i..]) == BlockKeys(q, ws[i + 1..])
  {
    BlockKeysFrom(q, ws, i);
    var w := ws[i].path;
    if |w| == |q| + 1 {
      assert w[..|q|][d] == w[d];
    }
    NoAddedKey(q, w);
  }

  /** The path is disjoint from every written path. */
  predicate Clear(q: Path, ws: seq<Write>)
  {
    forall i | 0 <= i < |ws| :: Disjoint(q, ws[i].path)
  }

  /** No written path lies on the way to q (q may lie above a write). */
  predicate NoneAbove(q: Path, ws: seq<Write>)
  {
    forall i | 0 <= i < |ws| :: !IsPrefix(ws[i].path, q)
  }

  // ---------------------------------------------------------------------
  // Paths

  /** Two paths that differ at some position are disjoint. */
  lemma DifferAt(p: Path, q: Path, i: nat)
    requires i < |p| && i < |q| && p[i] != q[i]
    ensures Disjoint(p, q)
  {
    if |p| <= |q| {
      assert q[..|p|][i] == q[i];
    } else {
      assert p[..|q|][i] == p[i];
    }
  }

  lemma PrefixTransitive(p: Path, q: Path, r: Path)
    requires IsPrefix(p, q) && IsPrefix(q, r)
    ensures IsPrefix(p, r)
  {
    assert r[..|q|][..|p|] == r[..|p|];
  }

  /** Paths that start with the same key are disjoint exactly when their tails are. */
  lemma DisjointTails(p: Path, q: Path)
    requires p != [] && q != [] && p[0] == q[0]
    ensures Disjoint(p, q) <==> Disjoint(p[1..], q[1..])
    ensures IsPrefix(p, q) <==> IsPrefix(p[1..], q[1..])
  {
    if |p| <= |q| {
      assert q[..|p|] == [q[0]] + q[1..][..|p| - 1];
    }
    if |q| <= |p| {
      assert p[..|q|] == [p[0]] + p[1..][..|q| - 1];
    }
  }

  lemma ParentIsPrefix(p: Path)
    requires p != []
    ensures IsPrefix(p[..|p| - 1], p)
  {
  }

  // ---------------------------------------------------------------------
  // Reading and writing one path

  /** Reading one key of a dict. */
  lemma GetField(v: Value, k: Key)
    requires v.Obj?
    ensures Get(v, [k]) == if k in v.fields then Some(v.fields[k]) else None
  {
    assert [k][1..] == [];
  }

  /** `Get` on a dict agrees with `Get` on another dict that holds the same value under the path's first key. */
  lemma GetThroughSameEntry(v: Value, w: Value, p: Path)
    requires v.Obj? && w.Obj? && p != []
    requires p[0] in v.fields && p[0] in w.fields && v.fields[p[0]] == w.fields[p[0]]
    ensures Get(v, p) == Get(w, p)
  {
  }

  /** Reading along p + q is reading p, then q from what p reached. */
  lemma {:induction false} GetAppend(v: Value, p: Path, q: Path)
    ensures Get(v, p + q) == (if Get(v, p).Some? then Get(Get(v, p).value, q) else None)
    decreases |p|
  {
    if p == [] {
      assert p + q == q;
    } else {
      assert (p + q)[0] == p[0];
      assert (p + q)[1..] == p[1..] + q;
      match Child(v, p[0])
      case None =>
      case Some(c) => GetAppend(c, p[1..], q);
    }
  }

  /** A written path reads back the written value. */
  lemma {:induction false} PutGet(v: Value, p: Path, x: Value)
    requires Put(v, p, x).Some?
    ensures Get(Put(v, p, x).value, p) == Some(x)
    decreases |p|
  {
    if |p| == 1 {
      assert p[1..] == [];
    } else if |p| > 1 {
      var c := Child(v, p[0]).value;
      PutGet(c, p[1..], x);
    }
  }

  /** Writing p changes nothing along a path disjoint from p. */
  lemma {:induction false} PutOther(v: Value, p: Path, x: Value, q: Path)
    requires Put(v, p, x).Some? && Disjoint(p, q)
    ensures Get(Put(v, p, x).value, q) == Get(v, q)
    decreases |p|
  {
    var r := Put(v, p, x).value;
    assert IsPrefix([], q) && IsPrefix([], p);
    assert q[..1] == [q[0]] && p[..1] == [p[0]];
    if p[0] != q[0] {
      assert Child(r, q[0]) == Child(v, q[0]);
    } else {
      var c := Child(v, p[0]).value;
      var c' := Put(c, p[1..], x).value;
      DisjointTails(p, q);
      PutOther(c, p[1..], x, q[1..]);
      assert Child(r, q[0]) == Some(c');
    }
  }

  lemma AddedKeyTail(q: Path, p: Path)
    requires p != [] && q != [] && p[0] == q[0]
    ensures AddedKey(q, p) == AddedKey(q[1..], p[1..])
  {
    if |p| == |q| + 1 {
      assert p[..|q|] == [p[0]] + p[1..][..|q| - 1];
      assert q == [q[0]] + q[1..];
    }
  }

  /**
   * Writing below a dict, but not onto it or above it, leaves it a dict, and
   * its keys change only by the key the write assigns when the dict is that
   * write's parent.
   */
  lemma {:induction false} PutKeys(v: Value, p: Path, x: Value, q: Path)
    requires Put(v, p, x).Some? && !IsPrefix(p, q) && IsDictAt(v, q)
    ensures IsDictAt(Put(v, p, x).value, q)
    ensures KeysAt(Put(v, p, x).value, q) == KeysAt(v, q) + AddedKey(q, p)
    decreases |p|
  {
    var r := Put(v, p, x).value;
    assert IsPrefix([], q);
    if q == [] {
      assert p[..0] == [];
    } else if p[0] != q[0] {
      assert Child(r, q[0]) == Child(v, q[0]);
      if |p| == |q| + 1 {
        assert p[..|q|][0] == p[0];
      }
    } else {
      assert q[..1] == [q[0]];
      var c := Child(v, p[0]).value;
      var c' := Put(c, p[1..], x).value;
      DisjointTails(p, q);
      PutKeys(c, p[1..], x, q[1..]);
      AddedKeyTail(q, p);
      assert Child(r, q[0]) == Some(c');
    }
  }

  /** Assigning into an existing dict cannot fail. */
  lemma {:induction false} PutIntoDict(v: Value, p: Path, x: Value)
    requires ParentIsDict(v, p)
    ensures Put(v, p, x).Some?
    decreases |p|
  {
    if |p| > 1 {
      var c := Child(v, p[0]).value;
      assert p[1..][..|p[1..]| - 1] == p[..|p| - 1][1..];
      PutIntoDict(c, p[1..], x);
    }
  }

  // ---------------------------------------------------------------------
  // A block of assignments

  /** What the rest of a block inherits from the whole block. */
  lemma TailOfBlock(ws: seq<Write>, q: Path)
    requires ws != []
    ensures PairwiseDisjoint(ws) ==> PairwiseDisjoint(ws[1..]) && Clear(ws[0].path, ws[1..])
    ensures Clear(q, ws) ==> Clear(q, ws[1..]) && Disjoint(q, ws[0].path)
    ensures NoneAbove(q, ws) ==> NoneAbove(q, ws[1..]) && !IsPrefix(ws[0].path, q)
  {
    assert forall i | 0 <= i < |ws[1..]| :: ws[1..][i] == ws[i + 1];
  }

  /**
   * A block of assignments to pairwise disjoint paths, each into a dict that
   * exists, succeeds, and afterwards every written path holds its value.
   */
  lemma {:induction false} WritesApply(v: Value, ws: seq<Write>)
    requires PairwiseDisjoint(ws) && DictParents(v, ws)
    ensures ApplyWrites(v, ws).Some?
    ensures forall i | 0 <= i < |ws| :: Get(ApplyWrites(v, ws).value, ws[i].path) == Some(ws[i].value)
    decreases |ws|
  {
    if ws != [] {
      var w, rest := ws[0], ws[1..];
      TailOfBlock(ws, []);
      PutIntoDict(v, w.path, w.value);
      var v' := Put(v, w.path, w.value).value;
      FirstWriteKeepsParents(v, ws);
      WritesApply(v', rest);
      var r := ApplyWrites(v', rest).value;
      WritesFrame(v', rest, w.path);
      PutGet(v, w.path, w.value);
      forall i | 0 <= i < |ws|
        ensures Get(r, ws[i].path) == Some(ws[i].value)
      {
        if i > 0 {
          assert ws[i] == rest[i - 1];
        }
      }
    }
  }

  /** The dicts the later assignments of a block write into survive the first one. */
  lemma FirstWriteKeepsParents(v: Value, ws: seq<Write>)
    requires ws != [] && PairwiseDisjoint(ws) && DictParents(v, ws)
    ensures Put(v, ws[0].path, ws[0].value).Some?
    ensures DictParents(Put(v, ws[0].path, ws[0].value).value, ws[1..])
  {
    var w, rest := ws[0], ws[1..];
    PutIntoDict(v, w.path, w.value);
    forall j | 0 <= j < |rest|
      ensures ParentIsDict(Put(v, w.path, w.value).value, rest[j].path)
    {
      var pj := rest[j].path;
      var parent := pj[..|pj| - 1];
      assert rest[j] == ws[j + 1];
      assert Disjoint(w.path, pj);
      ParentIsPrefix(pj);
      if IsPrefix(w.path, parent) {
        PrefixTransitive(w.path, parent, pj);
        assert false;
      }
      PutKeys(v, w.path, w.value, parent);
    }
  }

  /** A block of such assignments leaves every path clear of it as it was. */
  lemma {:induction false} WritesFrame(v: Value, ws: seq<Write>, q: Path)
    requires PairwiseDisjoint(ws) && DictParents(v, ws) && Clear(q, ws)
    ensures ApplyWrites(v, ws).Some?
    ensures Get(ApplyWrites(v, ws).value, q) == Get(v, q)
    decreases |ws|
  {
    if ws != [] {
      TailOfBlock(ws, q);
      FirstWriteKeepsParents(v, ws);
      var v' := Put(v, ws[0].path, ws[0].value).value;
      PutOther(v, ws[0].path, ws[0].value, q);
      WritesFrame(v', ws[1..], q);
    }
  }

  /**
   * A block of such assignments leaves a dict a dict unless it replaces it or
   * something above it, and adds to its keys exactly the keys it assigns in it.
   */
  lemma {:induction false} WritesKeys(v: Value, ws: seq<Write>, q: Path)
    requires PairwiseDisjoint(ws) && DictParents(v, ws) && NoneAbove(q, ws) && IsDictAt(v, q)
    ensures ApplyWrites(v, ws).Some?
    ensures IsDictAt(ApplyWrites(v, ws).value, q)
    ensures KeysAt(ApplyWrites(v, ws).value, q) == KeysAt(v, q) + BlockKeys(q, ws)
    decreases |ws|
  {
    if ws != [] {
      TailOfBlock(ws, q);
      FirstWriteKeepsParents(v, ws);
      var v' := Put(v, ws[0].path, ws[0].value).value;
      PutKeys(v, ws[0].path, ws[0].value, q);
      WritesKeys(v', ws[1..], q);
    }
  }

  /** After such a block every assignment of it could run again. */
  lemma WritesKeepParents(v: Value, ws: seq<Write>)
    requires PairwiseDisjoint(ws) && DictParents(v, ws)
    ensures ApplyWrites(v, ws).Some?
    ensures DictParents(ApplyWrites(v, ws).value, ws)
  {
    WritesApply(v, ws);
    forall i | 0 <= i < |ws|
      ensures ParentIsDict(ApplyWrites(v, ws).value, ws[i].path)
    {
      var p := ws[i].path;
      var parent := p[..|p| - 1];
      ParentIsPrefix(p);
      forall j | 0 <= j < |ws|
        ensures !IsPrefix(ws[j].path, parent)
      {
        if j != i {
          assert Disjoint(ws[j].path, p) by {
            if j < i {
              assert Disjoint(ws[j].path, ws[i].path);
            } else {
              assert Disjoint(ws[i].path, ws[j].path);
            }
          }
          if IsPrefix(ws[j].path, parent) {
            PrefixTransitive(ws[j].path, parent, p);
            assert false;
          }
        }
      }
      WritesKeys(v, ws, parent);
    }
  }
}
