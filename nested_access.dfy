/**
 * Dotted-path access into nested mappings: the path "data.id" names
 * obj["data"]["id"], one mapping level per dot-separated segment.
 */
module NestedAccess {
  import opened Wrappers
  import opened JsonValues

  /** The path separator. */
  const Dot: char := '.'

  /** The Python exceptions that resolving a field's value can raise. */
  datatype LookupError =
    | KeyError(key: string)   // a key absent from the mapping it was looked up in
    | TypeError               // an operation applied to a value of the wrong type: a key
                              // looked up in a non-mapping, or a non-number divided

  /** `path.split(".")`: the segments between the dots, empty ones included. */
  function Split(path: string): (segments: seq<string>)
    ensures |segments| >= 1
    decreases |path|
  {
    if path == [] then [""]
    else
      var rest := Split(path[1..]);
      if path[0] == Dot then [""] + rest
      else [[path[0]] + rest[0]] + rest[1..]
  }

  /** `".".join(segments)`. */
  function Join(segments: seq<string>): string {
    if segments == [] then ""
    else if |segments| == 1 then segments[0]
    else segments[0] + [Dot] + Join(segments[1..])
  }

  /** `obj[key]`. */
  function Get(obj: JsonObject, key: string): (r: Result<Json, LookupError>)
    ensures r.Ok? <==> key in obj
    ensures r.Ok? ==> r.value == obj[key]
    ensures r.Err? ==> r.error == KeyError(key)
  {
    if key in obj then Ok(obj[key]) else Err(KeyError(key))
  }

  /** `obj[keys[0]][keys[1]]...[keys[n]]`, raising as Python's subscription does. */
  function Walk(obj: JsonObject, keys: seq<string>): (r: Result<Json, LookupError>)
    requires |keys| >= 1
    ensures r.Err? && r.error.KeyError? ==> r.error.key in keys
    ensures keys[0] !in obj ==> r == Err(KeyError(keys[0]))
    decreases |keys|
  {
    if keys[0] !in obj then Err(KeyError(keys[0]))
    else if |keys| == 1 then Ok(obj[keys[0]])
    else
      match obj[keys[0]]
      case Object(inner) => Walk(inner, keys[1..])
      case _ => Err(TypeError)
  }

  /** Continues a walk that produced `r` with the further `keys`. */
  function Continue(r: Result<Json, LookupError>, keys: seq<string>): Result<Json, LookupError>
    requires |keys| >= 1
  {
    match r
    case Err(e) => Err(e)
    case Ok(Object(inner)) => Walk(inner, keys)
    case Ok(_) => Err(TypeError)
  }

  /** The dotted-path accessor: walks the segments of `path`. */
  function NestedGet(obj: JsonObject, path: string): (r: Result<Json, LookupError>)
    ensures r.Err? && r.error.KeyError? ==> r.error.key in Split(path)
  {
    Walk(obj, Split(path))
  }

  /** Splitting undoes joining: the segments rejoined with dots give back the path. */
  lemma {:induction false} JoinSplit(path: string)
    ensures Join(Split(path)) == path
    decreases |path|
  {
    if path != [] {
      var rest := Split(path[1..]);
      JoinSplit(path[1..]);
      if path[0] == Dot {
        var segs := [""] + rest;
        assert segs[0] == "" && segs[1..] == rest;
        assert Join(segs) == "" + [Dot] + Join(rest);
        assert path == [path[0]] + path[1..];
      } else {
        var segs := [[path[0]] + rest[0]] + rest[1..];
        if |rest| == 1 {
          assert Join(segs) == [path[0]] + rest[0];
          assert path == [path[0]] + path[1..];
        } else {
          assert segs[1..] == rest[1..];
          assert Join(segs) == [path[0]] + rest[0] + [Dot] + Join(rest[1..]);
          assert Join(rest) == rest[0] + [Dot] + Join(rest[1..]);
          assert path == [path[0]] + path[1..];
        }
      }
    }
  }

  /** A path without a dot is a single key. */
  lemma {:induction false} SplitNoDot(key: string)
    requires Dot !in key
    ensures Split(key) == [key]
    decreases |key|
  {
    if key != [] {
      assert Dot !in key[1..] by {
        forall i | 0 <= i < |key[1..]| ensures key[1..][i] != Dot {
          assert key[1..][i] == key[i + 1];
        }
      }
      SplitNoDot(key[1..]);
      assert key == [key[0]] + key[1..];
    }
  }

  /** How splitting treats the first character of a path. */
  lemma SplitCons(c: char, tail: string)
    ensures c == Dot ==> Split([c] + tail) == [""] + Split(tail)
    ensures c != Dot ==> Split([c] + tail) == [[c] + Split(tail)[0]] + Split(tail)[1..]
  {
    assert ([c] + tail)[0] == c && ([c] + tail)[1..] == tail;
  }

  /** Step of SplitDotConcat when `p` starts with a character other than a dot. */
  lemma SplitDotConcatStep(c: char, t: string, q: string)
    requires c != Dot
    requires Split(t + [Dot] + q) == Split(t) + Split(q)
    ensures Split([c] + t + [Dot] + q) == Split([c] + t) + Split(q)
  {
    assert [c] + t + [Dot] + q == [c] + (t + [Dot] + q);
    SplitCons(c, t + [Dot] + q);
    SplitCons(c, t);
    ExtendFirstSegment([c], Split(t), Split(q));
  }

  /** Prefixing the first segment commutes with appending further segments. */
  lemma ExtendFirstSegment(prefix: string, segments: seq<string>, more: seq<string>)
    requires |segments| >= 1
    ensures [prefix + (segments + more)[0]] + (segments + more)[1..]
         == ([prefix + segments[0]] + segments[1..]) + more
  {
    assert (segments + more)[1..] == segments[1..] + more;
  }

  /** Step of SplitDotConcat when `p` starts with a dot. */
  lemma SplitDotConcatDotStep(t: string, q: string)
    requires Split(t + [Dot] + q) == Split(t) + Split(q)
    ensures Split([Dot] + t + [Dot] + q) == Split([Dot] + t) + Split(q)
  {
    var rest, tail := Split(t), Split(q);
    assert [Dot] + t + [Dot] + q == [Dot] + (t + [Dot] + q);
    calc {
      Split([Dot] + (t + [Dot] + q));
    == { SplitCons(Dot, t + [Dot] + q); }
      [""] + (rest + tail);
    == 
      ([""] + rest) + tail;
    == { SplitCons(Dot, t); }
      Split([Dot] + t) + tail;
    }
  }

  /** Splitting `p + "." + q` splits `p` and `q` separately. */
  lemma {:induction false} SplitDotConcat(p: string, q: string)
    ensures Split(p + [Dot] + q) == Split(p) + Split(q)
    decreases |p|
  {
    if p == [] {
      assert p + [Dot] + q == [Dot] + q;
      SplitCons(Dot, q);
    } else {
      SplitDotConcat(p[1..], q);
      assert p == [p[0]] + p[1..];
      if p[0] == Dot {
        SplitDotConcatDotStep(p[1..], q);
      } else {
        SplitDotConcatStep(p[0], p[1..], q);
      }
    }
  }

  /** No segment of a split path contains a dot. */
  lemma {:induction false} SplitSegmentsDotFree(path: string)
    ensures forall i :: 0 <= i < |Split(path)| ==> Dot !in Split(path)[i]
    decreases |path|
  {
    if path != [] {
      SplitSegmentsDotFree(path[1..]);
      var rest := Split(path[1..]);
      if path[0] != Dot {
        var first := [path[0]] + rest[0];
        assert Dot !in first by {
          forall j | 0 <= j < |first| ensures first[j] != Dot {
            if j > 0 { assert first[j] == rest[0][j - 1]; }
          }
        }
        var segs := [first] + rest[1..];
        forall i | 0 <= i < |segs| ensures Dot !in segs[i] {
          if i > 0 { assert segs[i] == rest[i]; }
        }
      }
    }
  }

  /** Joining dot-free segments and splitting again gives the segments back. */
  lemma {:induction false} SplitJoin(segments: seq<string>)
    requires |segments| >= 1
    requires forall i :: 0 <= i < |segments| ==> Dot !in segments[i]
    ensures Split(Join(segments)) == segments
    decreases |segments|
  {
    SplitNoDot(segments[0]);
    if |segments| > 1 {
      var tail := segments[1..];
      assert forall i :: 0 <= i < |tail| ==> Dot !in tail[i] by {
        forall i | 0 <= i < |tail| ensures Dot !in tail[i] {
          assert tail[i] == segments[i + 1];
        }
      }
      SplitJoin(tail);
      SplitDotConcat(segments[0], Join(tail));
      assert segments == [segments[0]] + tail;
    }
  }

  /** Walking `p + q` is walking `p` and then walking `q` from where it ended. */
  lemma {:induction false} WalkConcat(obj: JsonObject, p: seq<string>, q: seq<string>)
    requires |p| >= 1 && |q| >= 1
    ensures Walk(obj, p + q) == Continue(Walk(obj, p), q)
    decreases |p|
  {
    var keys := p + q;
    assert keys[0] == p[0];
    if p[0] in obj {
      if |p| == 1 {
        assert keys[1..] == q;
      } else {
        assert keys[1..] == p[1..] + q;
        match obj[p[0]]
        case Object(inner) => WalkConcat(inner, p[1..], q);
        case _ =>
      }
    }
  }

  /** Resolving `p + "." + q` resolves `p` and then `q` inside the result. */
  lemma NestedGetConcat(obj: JsonObject, p: string, q: string)
    ensures NestedGet(obj, p + [Dot] + q) == Continue(NestedGet(obj, p), Split(q))
  {
    SplitDotConcat(p, q);
    WalkConcat(obj, Split(p), Split(q));
  }

  /** A path without a dot reads one top-level key. */
  lemma NestedGetPlainKey(obj: JsonObject, key: string)
    requires Dot !in key
    ensures NestedGet(obj, key) == Get(obj, key)
  {
    SplitNoDot(key);
  }

  /**
   * "a.b" names obj["a"]["b"]: missing "a" or missing "b" is a KeyError for
   * that key, and a non-mapping obj["a"] cannot be subscripted.
   */
  lemma NestedGetTwoLevels(obj: JsonObject, a: string, b: string)
    requires Dot !in a && Dot !in b
    ensures a !in obj ==> NestedGet(obj, a + [Dot] + b) == Err(KeyError(a))
    ensures a in obj && !obj[a].Object? ==> NestedGet(obj, a + [Dot] + b) == Err(TypeError)
    ensures a in obj && obj[a].Object? && b !in obj[a].fields ==>
      NestedGet(obj, a + [Dot] + b) == Err(KeyError(b))
    ensures a in obj && obj[a].Object? && b in obj[a].fields ==>
      NestedGet(obj, a + [Dot] + b) == Ok(obj[a].fields[b])
  {
    SplitNoDot(a);
    SplitNoDot(b);
    SplitDotConcat(a, b);
    var keys := Split(a + [Dot] + b);
    assert keys == [a, b];
    assert keys[1..] == [b];
    if a in obj && obj[a].Object? {
      var inner := obj[a].fields;
      assert Walk(obj, keys) == Walk(inner, [b]);
    }
  }

  /** The documented example: "data.id" on {"data": {"id": "abc"}} is "abc". */
  lemma DataIdExample()
    ensures NestedGet(map["data" := Object(map["id" := Str("abc")])], "data.id") == Ok(Str("abc"))
  {
    assert "data.id" == "data" + [Dot] + "id";
    NestedGetTwoLevels(map["data" := Object(map["id" := Str("abc")])], "data", "id");
  }
}
