/**
 * An HDF5 file seen as a map from paths (relative to the file's root group)
 * to the values stored there, and the one operation the writer uses on it:
 * creating a new name. As in h5py, creating a name that already exists fails
 * ("name already exists"), and whatever was created before the failure stays
 * in the file.
 */
module Hdf5Store {

  /** The element types the writer asks h5py for: "b" (1 byte) and "i" (4 bytes). */
  datatype DType = Int8 | Int32

  /** A value the writer stores without interpreting it: a unit string, a
      scale factor, a channel handle, a metadata entry. */
  datatype Item = Text(text: string) | Integer(n: int) | Real(x: real) | Integers(ns: seq<int>)

  /** What a path of the file holds. */
  datatype Value = Group | Scalar(item: Item) | Dataset(dtype: DType, data: seq<int>)

  type Store = map<string, Value>

  /** One creation request: a group, a scalar or a filled dataset at `path`. */
  datatype Write = Write(path: string, value: Value)

  /** The Python exceptions the modelled code raises or returns. */
  datatype Error =
    | IOError(message: string)       // returned (not raised) by open_file
    | ValueError(message: string)    // raised by active_file
    | AttributeError                 // a method call on the None handle
    | TypeError                      // an item assignment on the None handle
    | NameExists(path: string)       // h5py refuses to create an existing name
    | AlreadyOpen(filename: string)  // h5py's OSError: HDF5 will not truncate an open file

  datatype Outcome = Pass | Fail(error: Error)

  datatype Result<T> = Ok(value: T) | Err(error: Error)

  function Paths(ws: seq<Write>): (ps: set<string>)
    ensures forall i :: 0 <= i < |ws| ==> ws[i].path in ps
    ensures forall p :: p in ps ==> exists i :: 0 <= i < |ws| && ws[i].path == p
  {
    set w | w in ws :: w.path
  }

  /** No two requests of `ws` name the same path. */
  predicate Distinct(ws: seq<Write>) {
    forall i, j :: 0 <= i < j < |ws| ==> ws[i].path != ws[j].path
  }

  /** The map that a list of requests with distinct paths creates. */
  function ToMap(ws: seq<Write>): (m: Store)
    ensures m.Keys == Paths(ws)
    decreases |ws|
  {
    if ws == [] then map[] else ToMap(ws[1..])[ws[0].path := ws[0].value]
  }

  /** Performs the requests in order on `s`, as the successive h5py calls
      do: the first request whose name already exists stops the run with
      NameExists, and the requests before it are kept. */
  function Apply(s: Store, ws: seq<Write>): (r: (Store, Outcome))
    ensures r.1 == Pass || r.1.error.NameExists?
    decreases |ws|
  {
    if ws == [] then (s, Pass)
    else if ws[0].path in s then (s, Fail(NameExists(ws[0].path)))
    else Apply(s[ws[0].path := ws[0].value], ws[1..])
  }

  /** Nothing already in the file is overwritten or removed, and only the
      requested paths are added. */
  lemma {:induction false} ApplyKeeps(s: Store, ws: seq<Write>)
    ensures forall p :: p in s ==> p in Apply(s, ws).0 && Apply(s, ws).0[p] == s[p]
    ensures Apply(s, ws).0.Keys <= s.Keys + Paths(ws)
    decreases |ws|
  {
    if ws != [] && ws[0].path !in s {
      var w, t := ws[0], ws[1..];
      ApplyKeeps(s[w.path := w.value], t);
      assert ws == [w] + t;
      PathsCons(w, t);
    }
  }

  lemma {:induction false} ToMapAt(ws: seq<Write>, i: nat)
    requires Distinct(ws) && i < |ws|
    ensures ToMap(ws)[ws[i].path] == ws[i].value
    decreases |ws|
  {
    if i > 0 {
      var t := ws[1..];
      assert Distinct(t) by {
        forall a, b | 0 <= a < b < |t| ensures t[a].path != t[b].path {
          assert t[a] == ws[a + 1] && t[b] == ws[b + 1];
        }
      }
      ToMapAt(t, i - 1);
      assert t[i - 1] == ws[i];
    }
  }

  lemma {:induction false} PathsCons(w: Write, t: seq<Write>)
    ensures Paths([w] + t) == {w.path} + Paths(t)
  {
    var ws := [w] + t;
    forall p | p in Paths(ws) ensures p in {w.path} + Paths(t) {
      var i :| 0 <= i < |ws| && ws[i].path == p;
      if i > 0 { assert t[i - 1] == ws[i]; }
    }
  }

  lemma {:induction false} DistinctCons(w: Write, t: seq<Write>)
    ensures Distinct([w] + t) <==> Distinct(t) && w.path !in Paths(t)
  {
    var ws := [w] + t;
    if Distinct(ws) {
      forall a, b | 0 <= a < b < |t| ensures t[a].path != t[b].path {
        assert t[a] == ws[a + 1] && t[b] == ws[b + 1];
      }
      assert Distinct(t);
      forall i | 0 <= i < |t| ensures t[i].path != w.path {
        assert ws[i + 1] == t[i] && ws[0] == w;
      }
      assert w.path !in Paths(t);
    }
    if Distinct(t) && w.path !in Paths(t) {
      forall a, b | 0 <= a < b < |ws| ensures ws[a].path != ws[b].path {
        assert ws[b] == t[b - 1];
        if a > 0 {
          assert ws[a] == t[a - 1];
        } else {
          assert ws[a] == w && t[b - 1].path in Paths(t);
        }
      }
      assert Distinct(ws);
    }
  }

  /** The run succeeds exactly when the requested names are pairwise distinct
      and none exists yet. */
  lemma {:induction false} ApplyPassIff(s: Store, ws: seq<Write>)
    ensures Apply(s, ws).1 == Pass <==> Distinct(ws) && Paths(ws) !! s.Keys
    decreases |ws|
  {
    if ws != [] {
      var w, t := ws[0], ws[1..];
      assert ws == [w] + t;
      PathsCons(w, t);
      if w.path in s {
        assert w.path in Paths(ws) * s.Keys;
      } else {
        var s' := s[w.path := w.value];
        ApplyPassIff(s', t);
        DistinctCons(w, t);
        assert s'.Keys == s.Keys + {w.path};
        assert (Paths(t) !! s'.Keys) == (Paths(t) !! s.Keys && w.path !in Paths(t));
      }
    }
  }

  /** A successful run leaves the file holding its old entries plus the new ones. */
  lemma {:induction false} ApplyPassContents(s: Store, ws: seq<Write>)
    requires Apply(s, ws).1 == Pass
    ensures Apply(s, ws).0 == s + ToMap(ws)
    decreases |ws|
  {
    if ws != [] {
      var w, t := ws[0], ws[1..];
      assert w.path !in s;
      var s' := s[w.path := w.value];
      assert Apply(s, ws) == Apply(s', t);
      ApplyPassContents(s', t);
      ApplyPassIff(s, ws);
      assert ws == [w] + t;
      DistinctCons(w, t);
      UpdateThenUnion(s, ToMap(t), w.path, w.value);
    }
  }

  lemma {:induction false} UpdateThenUnion(s: Store, m: Store, p: string, v: Value)
    requires p !in m
    ensures s[p := v] + m == s + m[p := v]
  {
  }

  /** After a successful run, every requested path holds what was requested. */
  lemma {:induction false} WrittenValue(s: Store, ws: seq<Write>, w: Write)
    requires Apply(s, ws).1 == Pass && w in ws
    ensures w.path in Apply(s, ws).0 && Apply(s, ws).0[w.path] == w.value
  {
    ApplyPassIff(s, ws);
    ApplyPassContents(s, ws);
    var i :| 0 <= i < |ws| && ws[i] == w;
    ToMapAt(ws, i);
  }

  /** Two request lists with distinct paths each and no path in common
      together have distinct paths. */
  lemma {:induction false} DistinctAppend(a: seq<Write>, b: seq<Write>)
    requires Distinct(a) && Distinct(b) && Paths(a) !! Paths(b)
    ensures Distinct(a + b) && Paths(a + b) == Paths(a) + Paths(b)
  {
    var c := a + b;
    forall i, j | 0 <= i < j < |c| ensures c[i].path != c[j].path {
      if j < |a| {
        assert c[i] == a[i] && c[j] == a[j];
      } else if i >= |a| {
        assert c[i] == b[i - |a|] && c[j] == b[j - |a|];
      } else {
        assert c[i] == a[i] && c[j] == b[j - |a|];
        assert a[i].path in Paths(a) && b[j - |a|].path in Paths(b);
      }
    }
  }
}
