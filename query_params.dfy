/**
 * `URLSearchParams` as the core uses it: a query string read into an ordered list of
 * name/value pairs, `get` returning the first value for a name, and `toString` writing the
 * pairs back. Percent-encoding and the `+`-for-space rule are not modelled: names and
 * values are taken verbatim.
 */
module QueryParams {
  import opened Wrappers
  import opened Strings

  datatype Param = Param(name: string, value: string)

  /** One `name=value` segment, split at its first `=`; without `=` the value is empty. */
  function ParseSegment(seg: string): (p: Param)
    ensures '=' !in p.name
    ensures '=' in seg ==> seg == p.name + "=" + p.value
    ensures '=' !in seg ==> p == Param(seg, "")
  {
    if '=' in seg then
      var k := IndexOf(seg, '=');
      assert seg == seg[..k] + "=" + seg[k + 1..];
      Param(seg[..k], seg[k + 1..])
    else
      Param(seg, "")
  }

  /** The segments in order, empty ones skipped. */
  function ParseSegments(segs: seq<string>): (ps: seq<Param>)
    ensures |ps| <= |segs|
  {
    if |segs| == 0 then []
    else (if segs[0] == "" then [] else [ParseSegment(segs[0])]) + ParseSegments(segs[1..])
  }

  /** `new URLSearchParams(s)`: a leading `?` is dropped, then the text is split on `&`. */
  function ParseQuery(s: string): seq<Param> {
    var body := if |s| > 0 && s[0] == '?' then s[1..] else s;
    ParseSegments(Split(body, '&'))
  }

  /** `params.get(name)`: the value of the first pair with that name. */
  function Get(ps: seq<Param>, name: string): (r: Option<string>)
    ensures r.Some? <==> exists i :: 0 <= i < |ps| && ps[i].name == name
    ensures r.Some? ==> exists i :: 0 <= i < |ps| && ps[i] == Param(name, r.value)
                                    && forall j :: 0 <= j < i ==> ps[j].name != name
  {
    if |ps| == 0 then None
    else if ps[0].name == name then Some(ps[0].value)
    else
      var r := Get(ps[1..], name);
      assert forall i :: 1 <= i < |ps| ==> ps[i] == ps[1..][i - 1];
      r
  }

  /** Lookup in a concatenation tries the first part, then the second. */
  lemma {:induction false} GetAppend(a: seq<Param>, b: seq<Param>, name: string)
    ensures Get(a + b, name) == if Get(a, name).Some? then Get(a, name) else Get(b, name)
  {
    if |a| > 0 {
      GetAppend(a[1..], b, name);
      assert (a + b)[1..] == a[1..] + b;
    } else {
      assert a + b == b;
    }
  }

  /** The value of the first pair with a name is what `get` returns. */
  lemma GetAt(ps: seq<Param>, i: nat, name: string)
    requires i < |ps| && ps[i].name == name
    requires forall j :: 0 <= j < i ==> ps[j].name != name
    ensures Get(ps, name) == Some(ps[i].value)
  {
    var r := Get(ps, name);
    var k :| 0 <= k < |ps| && ps[k] == Param(name, r.value) && forall j :: 0 <= j < k ==> ps[j].name != name;
    if k < i {
      assert false;
    } else if k > i {
      assert false;
    }
  }

  function SegmentOf(p: Param): string {
    p.name + "=" + p.value
  }

  function Segments(ps: seq<Param>): (segs: seq<string>)
    ensures |segs| == |ps|
    ensures forall i :: 0 <= i < |ps| ==> segs[i] == SegmentOf(ps[i])
  {
    if |ps| == 0 then [] else [SegmentOf(ps[0])] + Segments(ps[1..])
  }

  /** `params.toString()`: `name=value` segments joined with `&`. */
  function Serialize(ps: seq<Param>): string {
    Join(Segments(ps), '&')
  }

  /** A pair that survives `Serialize` then `ParseQuery` without percent-encoding. */
  predicate Verbatim(p: Param) {
    '&' !in p.name && '=' !in p.name && '?' !in p.name && '&' !in p.value
  }

  lemma ParseSegmentOf(p: Param)
    requires '=' !in p.name
    ensures ParseSegment(SegmentOf(p)) == p
  {
    IndexOfAfter(p.name, '=', p.value);
    var seg := SegmentOf(p);
    assert seg[..|p.name|] == p.name;
    assert seg[|p.name| + 1..] == p.value;
  }

  lemma {:induction false} ParseSegmentsOf(ps: seq<Param>)
    requires forall i :: 0 <= i < |ps| ==> '=' !in ps[i].name
    ensures ParseSegments(Segments(ps)) == ps
  {
    if |ps| > 0 {
      ParseSegmentOf(ps[0]);
      ParseSegmentsOf(ps[1..]);
      assert Segments(ps)[1..] == Segments(ps[1..]);
      assert ps == [ps[0]] + ps[1..];
    }
  }

  /** Writing pairs out and reading them back gives the same pairs, in the same order. */
  lemma ParseSerialize(ps: seq<Param>)
    requires forall i :: 0 <= i < |ps| ==> Verbatim(ps[i])
    ensures ParseQuery(Serialize(ps)) == ps
  {
    var segs := Segments(ps);
    if |ps| == 0 {
      assert Serialize(ps) == "";
    } else {
      assert forall i :: 0 <= i < |segs| ==> '&' !in segs[i] by {
        SegmentsFree(ps);
      }
      SplitJoin(segs, '&');
      var s := Serialize(ps);
      SerializeStart(ps);
      assert s[0] != '?';
      ParseSegmentsOf(ps);
    }
  }

  lemma {:induction false} SegmentsFree(ps: seq<Param>)
    requires forall i :: 0 <= i < |ps| ==> Verbatim(ps[i])
    ensures forall i :: 0 <= i < |Segments(ps)| ==> '&' !in Segments(ps)[i]
  {
    if |ps| > 0 {
      SegmentsFree(ps[1..]);
      var segs := Segments(ps);
      assert segs == [SegmentOf(ps[0])] + Segments(ps[1..]);
      assert '&' !in SegmentOf(ps[0]);
    }
  }

  /** A character other than `&` and `=` that no name or value holds is not in the
      serialized text. */
  lemma SerializeFreeOf(ps: seq<Param>, c: char)
    requires c != '&' && c != '='
    requires forall i :: 0 <= i < |ps| ==> c !in ps[i].name && c !in ps[i].value
    ensures c !in Serialize(ps)
  {
    var segs := Segments(ps);
    forall i | 0 <= i < |segs| ensures c !in segs[i] {
      assert segs[i] == ps[i].name + "=" + ps[i].value;
    }
    JoinFree(segs, '&', c);
  }

  /** The serialized text starts with the first name, or with `=` when that name is empty. */
  lemma SerializeStart(ps: seq<Param>)
    requires |ps| > 0 && '?' !in ps[0].name
    ensures |Serialize(ps)| > 0 && Serialize(ps)[0] != '?'
  {
    var segs := Segments(ps);
    var first := SegmentOf(ps[0]);
    assert segs[0] == first;
    assert first[0] != '?' by {
      if |ps[0].name| > 0 {
        assert first[0] == ps[0].name[0];
        assert ps[0].name[0] in ps[0].name;
      } else {
        assert first[0] == '=';
      }
    }
    if |segs| == 1 {
      assert Serialize(ps) == first;
    } else {
      assert Serialize(ps) == first + "&" + Join(segs[1..], '&');
    }
  }
}
