/** The level page's route handling: the path is split on "/", empty
    segments are dropped, a "levels/<id>" prefix names the level, and the
    level is looked up in the catalog with no fallback. */
module LevelDetail {
  import opened Common
  import opened Levels
  import Frame

  /** `s.split("/")`: the pieces between slashes, empty ones included, so
      there is always at least one. */
  function Split(s: string): (parts: seq<string>)
    ensures |parts| >= 1
  {
    if |s| == 0 then [""]
    else
      var rest := Split(s[1..]);
      if s[0] == '/' then [""] + rest else [[s[0]] + rest[0]] + rest[1..]
  }

  /** No piece holds a slash. */
  lemma {:induction false} SplitNoSlash(s: string)
    ensures forall i :: 0 <= i < |Split(s)| ==> '/' !in Split(s)[i]
  {
    if |s| > 0 {
      SplitNoSlash(s[1..]);
      var rest := Split(s[1..]);
      if s[0] != '/' {
        assert '/' !in rest[0];
        assert '/' !in [s[0]] + rest[0];
      }
    }
  }

  /** The pieces put back together with "/" between them. */
  function Join(parts: seq<string>): string
    requires |parts| >= 1
  {
    if |parts| == 1 then parts[0] else parts[0] + "/" + Join(parts[1..])
  }

  /** Splitting loses nothing: joining the pieces gives the path back. */
  lemma {:induction false} JoinSplit(s: string)
    ensures Join(Split(s)) == s
  {
    if |s| > 0 {
      var rest := Split(s[1..]);
      JoinSplit(s[1..]);
      if s[0] == '/' {
        assert s == "/" + s[1..];
      } else if |rest| == 1 {
        assert s == [s[0]] + s[1..];
      } else {
        assert Split(s) == [[s[0]] + rest[0]] + rest[1..];
        assert Join(rest) == rest[0] + "/" + Join(rest[1..]);
        assert s == [s[0]] + s[1..];
      }
    }
  }

  /** Splitting a path that starts with character `c`. */
  lemma SplitCons(c: char, t: string)
    ensures Split([c] + t) == if c == '/' then [""] + Split(t) else [[c] + Split(t)[0]] + Split(t)[1..]
  {
    assert ([c] + t)[1..] == t;
  }

  /** Gluing `c` onto the first piece commutes with appending more pieces. */
  lemma GlueAppend(c: char, tail: seq<string>, rest: seq<string>)
    requires |tail| >= 1
    ensures [[c] + (tail + rest)[0]] + (tail + rest)[1..] == ([[c] + tail[0]] + tail[1..]) + rest
  {
    assert (tail + rest)[1..] == tail[1..] + rest;
  }

  /** A slash splits a path into the pieces of either side. */
  lemma {:induction false} SplitAround(a: string, b: string)
    ensures Split(a + "/" + b) == Split(a) + Split(b)
  {
    if |a| == 0 {
      assert a + "/" + b == ['/'] + b;
      SplitCons('/', b);
    } else {
      SplitAround(a[1..], b);
      SplitAroundCons(a[0], a[1..], b);
      assert a == [a[0]] + a[1..];
    }
  }

  /** The inductive step of `SplitAround`: one more character in front. */
  lemma SplitAroundCons(c: char, t: string, b: string)
    requires Split(t + "/" + b) == Split(t) + Split(b)
    ensures Split([c] + t + "/" + b) == Split([c] + t) + Split(b)
  {
    assert [c] + t + "/" + b == [c] + (t + "/" + b);
    if c == '/' {
      SlashAround(t, b);
    } else {
      CharAround(c, t, b);
    }
  }

  lemma SlashAround(t: string, b: string)
    requires Split(t + "/" + b) == Split(t) + Split(b)
    ensures Split(['/'] + (t + "/" + b)) == Split(['/'] + t) + Split(b)
  {
    var st, sb := Split(t), Split(b);
    SplitCons('/', t + "/" + b);
    SplitCons('/', t);
    assert [""] + (st + sb) == ([""] + st) + sb;
  }

  lemma CharAround(c: char, t: string, b: string)
    requires c != '/'
    requires Split(t + "/" + b) == Split(t) + Split(b)
    ensures Split([c] + (t + "/" + b)) == Split([c] + t) + Split(b)
  {
    var st, sb := Split(t), Split(b);
    SplitCons(c, t + "/" + b);
    SplitCons(c, t);
    GlueAppend(c, st, sb);
  }

  /** `.filter(Boolean)`: the non-empty pieces, in order. */
  function NonEmpty(parts: seq<string>): (segs: seq<string>)
    ensures forall i :: 0 <= i < |segs| ==> segs[i] != "" && segs[i] in parts
  {
    if |parts| == 0 then []
    else (if parts[0] == "" then [] else [parts[0]]) + NonEmpty(parts[1..])
  }

  lemma {:induction false} NonEmptyAppend(p: seq<string>, q: seq<string>)
    ensures NonEmpty(p + q) == NonEmpty(p) + NonEmpty(q)
  {
    if |p| > 0 {
      NonEmptyAppend(p[1..], q);
      assert (p + q)[1..] == p[1..] + q;
    } else {
      assert p + q == q;
    }
  }

  /** The path's segments: no segment is empty or holds a slash. */
  function Segments(path: string): (segs: seq<string>)
    ensures forall i :: 0 <= i < |segs| ==> segs[i] != "" && '/' !in segs[i]
  {
    SplitNoSlash(path);
    NonEmpty(Split(path))
  }

  /** A slash between two paths is where their segments meet. */
  lemma SegmentsAround(a: string, b: string)
    ensures Segments(a + "/" + b) == Segments(a) + Segments(b)
  {
    SplitAround(a, b);
    NonEmptyAppend(Split(a), Split(b));
  }

  /** Leading, trailing and doubled slashes make no difference. */
  lemma LeadingSlashIgnored(b: string)
    ensures Segments("/" + b) == Segments(b)
  {
    SegmentsAround("", b);
    assert "" + "/" + b == "/" + b;
    assert Segments("") == [];
  }

  lemma TrailingSlashIgnored(a: string)
    ensures Segments(a + "/") == Segments(a)
  {
    SegmentsAround(a, "");
    assert a + "/" + "" == a + "/";
    assert Segments("") == [];
  }

  lemma DoubledSlashIgnored(a: string, b: string)
    ensures Segments(a + "//" + b) == Segments(a + "/" + b)
  {
    SegmentsAround(a, "/" + b);
    assert a + "/" + ("/" + b) == a + "//" + b;
    LeadingSlashIgnored(b);
    SegmentsAround(a, b);
  }

  /** The level id in the path: the second segment after a first segment
      "levels"; anything after it is ignored. */
  function PathId(path: string): (id: Option<string>)
    ensures id.Some? ==> id.value != "" && '/' !in id.value
  {
    var segs := Segments(path);
    if |segs| >= 2 && segs[0] == "levels" then Some(segs[1]) else None
  }

  lemma PathIdFacts(path: string)
    ensures PathId(path).Some? <==> |Segments(path)| >= 2 && Segments(path)[0] == "levels"
    ensures PathId(path).Some? ==> PathId(path).value == Segments(path)[1] && PathId(path).value != ""
  {
  }

  /** "/levels/<id>" names level `<id>` when `<id>` is one segment, whatever
      follows and however many slashes surround it. */
  lemma LevelsPath(id: string, tail: string)
    requires id != "" && '/' !in id
    ensures PathId("/levels/" + id + "/" + tail) == Some(id)
  {
    var y := id + "/" + tail;
    var x := "levels" + "/" + y;
    assert "/levels/" + id + "/" + tail == "/" + x;
    LeadingSlashIgnored(x);
    WordThen("levels", y);
    WordThen(id, tail);
  }

  /** A word without slashes, then a slash, is that word's segment first. */
  lemma WordThen(w: string, rest: string)
    requires w != "" && '/' !in w
    ensures Segments(w + "/" + rest) == [w] + Segments(rest)
  {
    SegmentsAround(w, rest);
    SplitWord(w);
  }

  /** A word without slashes is one piece, and one segment unless empty. */
  lemma {:induction false} SplitWord(w: string)
    requires '/' !in w
    ensures Split(w) == [w]
    ensures w != "" ==> Segments(w) == [w]
  {
    assert NonEmpty([w]) == (if w == "" then [] else [w]) + NonEmpty([]) by {
      assert [w][1..] == [];
    }
    if |w| > 0 {
      SplitWord(w[1..]);
      assert w == [w[0]] + w[1..];
    }
  }

  /** The level the page shows: the catalog entry with the path's id, and
      none when there is no id or no such level. */
  function DetailLevel(levels: seq<Level>, path: string): (r: Option<Level>)
    ensures r.Some? ==> PathId(path).Some? && r.value.id == PathId(path).value && r.value in levels
    ensures PathId(path).Some? && (exists j :: 0 <= j < |levels| && levels[j].id == PathId(path).value) ==> r.Some?
    ensures r.Some? ==> r == FindLevel(levels, PathId(path).value)
  {
    var id := PathId(path);
    if id.Some? then FindLevel(levels, id.value) else None
  }

  /** An id no level carries shows "not found" here, where the game
      itself would fall back to the first level. */
  lemma NoFallback(levels: seq<Level>, path: string)
    requires PathId(path).Some? && |levels| > 0
    requires forall j :: 0 <= j < |levels| ==> levels[j].id != PathId(path).value
    ensures DetailLevel(levels, path).None?
    ensures Frame.OpenLevel(levels, PathId(path).value) == Some(levels[0])
  {
  }
}
