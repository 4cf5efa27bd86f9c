/** internal/utils/path.go: route patterns to function file names and back. */
module Utils {
  import opened Wrappers
  import opened Errors
  import opened Text

  /** A segment starting with this character is a path parameter. */
  const PathParameterPrefix: char := ':'

  /** One segment of a pattern in a file name: a leading ':' becomes '$'. */
  function ConvertSegment(p: string): string
  {
    if HasPrefix(p, [PathParameterPrefix]) then "$" + p[1..] else p
  }

  function ConvertAll(parts: seq<string>): (r: seq<string>)
    ensures |r| == |parts|
    ensures forall k :: 0 <= k < |parts| ==> r[k] == ConvertSegment(parts[k])
  {
    seq(|parts|, k requires 0 <= k < |parts| => ConvertSegment(parts[k]))
  }

  /** The '/'-separated segments of a pattern, without the empty one before a
      leading '/'. */
  function Segments(pattern: string): seq<string>
  {
    var parts := Split(pattern, '/');
    if parts[0] == "" then parts[1..] else parts
  }

  /** What PathPatternToFileName returns: an error for the empty pattern,
      otherwise the converted segments joined by '.', followed by ".ts". */
  function FileNameOf(pattern: string): (r: Result<string, Error>)
    ensures r.Err? <==> pattern == ""
    ensures r.Err? ==> r.error == Message("invalid pattern")
    ensures r.Ok? ==> HasSuffix(r.value, ".ts") && '/' !in r.value
  {
    if pattern == "" then Err(Message("invalid pattern"))
    else
      SplitSepFree(pattern, '/');
      var conv := ConvertAll(Segments(pattern));
      forall k | 0 <= k < |conv| ensures '/' !in conv[k] {
        var part := Segments(pattern)[k];
        assert '/' !in part;
        if HasPrefix(part, [PathParameterPrefix]) {
          assert conv[k][1..] == part[1..];
        }
      }
      JoinExcludes(conv, '.', '/');
      var name := Join(conv, '.') + ".ts";
      assert name[|name| - 3..] == ".ts";
      Ok(name)
  }

  /** FileNameOf unfolded: the form the proofs about file names below work with. */
  lemma FileNameOfSegments(pattern: string)
    requires pattern != ""
    ensures FileNameOf(pattern) == Ok(Join(ConvertAll(Segments(pattern)), '.') + ".ts")
  {
  }

  /** PathPatternToFileName, with its loop over the segments; the Go string
      result is "" whenever the error is set. */
  method PathPatternToFileName(pattern: string) returns (name: string, err: Option<Error>)
    ensures pattern == "" ==> name == "" && err == Some(Message("invalid pattern"))
    ensures pattern != "" ==> err.None? && name == FileNameOf(pattern).value
  {
    if |pattern| == 0 {
      return "", Some(Message("invalid pattern"));
    }
    var fname := "";
    var parts := Split(pattern, '/');
    if parts[0] == "" {
      parts := parts[1..];
    }
    assert parts == Segments(pattern);
    for i := 0 to |parts|
      invariant fname == Built(parts, i)
    {
      assert Built(parts, i + 1) == Built(parts, i) + ConvertSegment(parts[i]) + (if i + 1 < |parts| then "." else "");
      var p := parts[i];
      if HasPrefix(p, [PathParameterPrefix]) {
        fname := fname + ("$" + p[1..]);
      } else {
        fname := fname + p;
      }
      if i < |parts| - 1 {
        fname := fname + ".";
      }
    }
    BuiltIsFileName(pattern, parts);
    fname := fname + ".ts";
    return fname, None;
  }

  /** The name PathPatternToFileName has built after the first `i` segments:
      each converted segment, followed by a '.' unless it is the last one. */
  function Built(parts: seq<string>, i: nat): string
    requires i <= |parts|
  {
    if i == 0 then ""
    else Built(parts, i - 1) + ConvertSegment(parts[i - 1]) + (if i < |parts| then "." else "")
  }

  /** Built is the join of the converted segments so far, with the separator
      that will follow them. */
  lemma {:induction false} BuiltIsJoin(parts: seq<string>, i: nat)
    requires i <= |parts|
    ensures Built(parts, i) == Join(ConvertAll(parts)[..i], '.') + (if 0 < i < |parts| then "." else "")
  {
    if i > 0 {
      BuiltIsJoin(parts, i - 1);
      JoinStep(ConvertAll(parts), i - 1);
    }
  }

  /** Once every segment is built, the name is FileNameOf's result without ".ts". */
  lemma BuiltIsFileName(pattern: string, parts: seq<string>)
    requires pattern != "" && parts == Segments(pattern)
    ensures FileNameOf(pattern) == Ok(Built(parts, |parts|) + ".ts")
  {
    var conv := ConvertAll(parts);
    BuiltIsJoin(parts, |parts|);
    assert conv[..|parts|] == conv;
    assert Built(parts, |parts|) == Join(conv, '.');
    FileNameOfSegments(pattern);
  }

  lemma JoinStep(conv: seq<string>, i: nat)
    requires i < |conv|
    ensures Join(conv[..i + 1], '.') == Join(conv[..i], '.') + (if 0 < i then "." else "") + conv[i]
  {
    if i > 0 {
      assert conv[..i + 1] == conv[..i] + [conv[i]];
      JoinSnoc(conv[..i], conv[i], '.');
    } else {
      assert conv[..1] == [conv[0]];
    }
  }

  /** FileNameToHttpPath: drops ".ts", turns '$' into ':' and '.' into '/',
      and puts a '/' in front. The result is a path without '.' or '$'. */
  function FileNameToHttpPath(name: string): (r: string)
    ensures var t := TrimSuffix(name, ".ts");
      && |r| == |t| + 1 && r[0] == '/'
      && forall i :: 0 <= i < |t| ==> r[i + 1] == (if t[i] == '$' then ':' else if t[i] == '.' then '/' else t[i])
    ensures '$' !in r && '.' !in r
  {
    var dollarsFree := ReplaceChar(TrimSuffix(name, ".ts"), '$', ':');
    var path := ReplaceChar(dollarsFree, '.', '/');
    assert '$' !in path by {
      forall i | 0 <= i < |path| ensures path[i] != '$' {
        assert dollarsFree[i] != '$';
      }
    }
    "/" + path
  }

  /** A segment converted and converted back is the segment again, provided
      it holds no '$'. */
  lemma ConvertSegmentBack(p: string)
    requires '$' !in p
    ensures ReplaceChar(ConvertSegment(p), '$', ':') == p
  {
    var c := ConvertSegment(p);
    var r := ReplaceChar(c, '$', ':');
    if HasPrefix(p, [PathParameterPrefix]) {
      forall i | 0 <= i < |p| ensures r[i] == p[i] {
        if i > 0 { assert c[i] == p[i]; }
      }
    } else {
      ReplaceCharAbsent(p, '$', ':');
    }
  }

  /** Round trip: a non-empty pattern holding neither '.' nor '$' comes back
      from its file name unchanged, with a leading '/' added when it had none. */
  lemma PatternRoundTrip(pattern: string)
    requires pattern != "" && '.' !in pattern && '$' !in pattern
    ensures FileNameToHttpPath(FileNameOf(pattern).value)
         == if pattern[0] == '/' then pattern else "/" + pattern
  {
    var parts := Segments(pattern);
    FileNameOfSegments(pattern);
    SplitPartsWithin(pattern, '/');
    forall k | 0 <= k < |parts| ensures '$' !in parts[k] && '.' !in parts[k] {
      assert forall c :: c in parts[k] ==> c in pattern;
    }
    JoinedNameBack(parts);
    SegmentsRejoin(pattern);
  }

  /** The file name of segments free of '.' and '$' converts back to the
      segments joined by '/', behind a leading '/'. */
  lemma JoinedNameBack(parts: seq<string>)
    requires forall k :: 0 <= k < |parts| ==> '$' !in parts[k] && '.' !in parts[k]
    ensures FileNameToHttpPath(Join(ConvertAll(parts), '.') + ".ts") == "/" + Join(parts, '/')
  {
    var joined := Join(ConvertAll(parts), '.');
    assert TrimSuffix(joined + ".ts", ".ts") == joined by {
      var t := TrimSuffix(joined + ".ts", ".ts");
      assert t + ".ts" == joined + ".ts";
      assert t == (t + ".ts")[..|t|];
    }
    JoinedSegmentsBack(parts);
  }

  /** Undoing the conversion character by character on the joined segments
      gives them back joined by '/'. */
  lemma JoinedSegmentsBack(parts: seq<string>)
    requires forall k :: 0 <= k < |parts| ==> '$' !in parts[k] && '.' !in parts[k]
    ensures ReplaceChar(ReplaceChar(Join(ConvertAll(parts), '.'), '$', ':'), '.', '/') == Join(parts, '/')
  {
    var conv := ConvertAll(parts);
    ReplaceCharJoin(conv, '.', '$', ':');
    assert ReplaceEach(conv, '$', ':') == parts by {
      forall k | 0 <= k < |parts| ensures ReplaceEach(conv, '$', ':')[k] == parts[k] {
        ConvertSegmentBack(parts[k]);
      }
    }
    ReplaceCharJoin(parts, '.', '.', '/');
    assert ReplaceEach(parts, '.', '/') == parts by {
      forall k | 0 <= k < |parts| ensures ReplaceEach(parts, '.', '/')[k] == parts[k] {
        ReplaceCharAbsent(parts[k], '.', '/');
      }
    }
  }

  /** Joining the segments back with '/' behind a leading '/' gives the
      pattern, with a leading '/' added when it had none. */
  lemma SegmentsRejoin(pattern: string)
    requires pattern != ""
    ensures "/" + Join(Segments(pattern), '/') == if pattern[0] == '/' then pattern else "/" + pattern
  {
    var split := Split(pattern, '/');
    SplitJoin(pattern, '/');
    if split[0] == "" {
      assert |split| >= 2;
      assert pattern == "/" + Join(split[1..], '/');
    } else if |split| > 1 {
      assert pattern == split[0] + ['/'] + Join(split[1..], '/');
      assert pattern[0] == split[0][0];
    } else {
      assert pattern == split[0];
    }
  }

  /** A pattern and the same pattern with a leading '/' name the same file. */
  lemma LeadingSlashIgnored(pattern: string)
    requires pattern != "" && pattern[0] != '/'
    ensures FileNameOf("/" + pattern) == FileNameOf(pattern)
  {
    var s := "/" + pattern;
    assert IndexOf(s, '/') == 0;
    assert s[1..] == pattern;
    assert Split(s, '/') == [""] + Split(pattern, '/');
    assert IndexOf(pattern, '/') != 0;
    assert Split(pattern, '/')[0] != "";
  }

  /** Split at the first separator of a string. */
  lemma SplitAtFirst(s: string, sep: char, i: nat)
    requires i < |s| && s[i] == sep && sep !in s[..i]
    ensures Split(s, sep) == [s[..i]] + Split(s[i + 1..], sep)
  {
    assert IndexOf(s, sep) == i;
  }

  lemma SplitWithoutSep(s: string, sep: char)
    requires sep !in s
    ensures Split(s, sep) == [s]
  {
  }

  /** Joining separator-free pieces and splitting the result gives the pieces back. */
  lemma {:induction false} JoinSplit(parts: seq<string>, sep: char)
    requires |parts| >= 1 && forall k :: 0 <= k < |parts| ==> sep !in parts[k]
    ensures Split(Join(parts, sep), sep) == parts
  {
    if |parts| == 1 {
      SplitWithoutSep(parts[0], sep);
    } else {
      var s := Join(parts, sep);
      var rest := Join(parts[1..], sep);
      var i := |parts[0]|;
      assert s == parts[0] + [sep] + rest;
      assert s[..i] == parts[0] && s[i] == sep && s[i + 1..] == rest;
      SplitAtFirst(s, sep, i);
      JoinSplit(parts[1..], sep);
      assert parts == [parts[0]] + parts[1..];
    }
  }

  /** The examples of the package's tests. */
  lemma FileNameExamples(p: string)
    requires p == "users/:id"
    ensures FileNameOf(p) == Ok("users.$id.ts")
    ensures FileNameOf("/" + p) == Ok("users.$id.ts")
    ensures FileNameOf("") == Err(Message("invalid pattern"))
  {
    assert p[..5] == "users" && p[6..] == ":id";
    SplitWithoutSep(p[6..], '/');
    SplitAtFirst(p, '/', 5);
    assert Split(p, '/') == ["users", ":id"];
    var id := ":id";
    assert HasPrefix(id, [PathParameterPrefix]) && id[1..] == "id";
    assert ConvertSegment(id) == "$id";
    assert !HasPrefix("users", [PathParameterPrefix]);
    var conv := ConvertAll(["users", id]);
    assert conv == ["users", "$id"];
    assert Segments(p) == ["users", ":id"];
    assert Join(conv, '.') == "users" + "." + "$id";
    assert ConvertAll(Segments(p)) == conv;
    assert "users" + "." + "$id" + ".ts" == "users.$id.ts";
    FileNameOfSegments(p);
    LeadingSlashIgnored(p);
  }

  /** An example of the package's tests with several parameters. */
  lemma ParametersExample(p: string)
    requires p == "oh/:id/my/god/:what"
    ensures FileNameOf("/" + p) == Ok("oh.$id.my.god.$what.ts")
  {
    var parts := ["oh", ":id", "my", "god", ":what"];
    ParametersSplit(p);
    JoinSplit(parts, '/');
    ParametersConverted();
    FileNameOfSegments(p);
    LeadingSlashIgnored(p);
  }

  lemma ParametersSplit(p: string)
    requires p == "oh/:id/my/god/:what"
    ensures Join(["oh", ":id", "my", "god", ":what"], '/') == p
  {
    var parts := ["oh", ":id", "my", "god", ":what"];
    assert parts[1..][1..][1..] == ["god", ":what"];
    assert parts[1..][1..] == ["my", "god", ":what"];
    assert parts[1..] == [":id", "my", "god", ":what"];
  }

  lemma ParametersConverted()
    ensures Join(ConvertAll(["oh", ":id", "my", "god", ":what"]), '.') + ".ts" == "oh.$id.my.god.$what.ts"
  {
    ParametersSegmentsConverted();
    ParametersJoined();
  }

  lemma ParametersSegmentsConverted()
    ensures ConvertAll(["oh", ":id", "my", "god", ":what"]) == ["oh", "$id", "my", "god", "$what"]
  {
    var conv := ConvertAll(["oh", ":id", "my", "god", ":what"]);
    assert conv[0] == "oh" && conv[2] == "my" && conv[3] == "god";
    assert conv[1] == "$id" && conv[4] == "$what";
  }

  lemma ParametersJoined()
    ensures Join(["oh", "$id", "my", "god", "$what"], '.') + ".ts" == "oh.$id.my.god.$what.ts"
  {
    var conv := ["oh", "$id", "my", "god", "$what"];
    assert conv[1..][1..][1..] == ["god", "$what"];
    assert conv[1..][1..] == ["my", "god", "$what"];
    assert conv[1..] == ["$id", "my", "god", "$what"];
  }

  /** An example of the package's tests: a dot inside a segment is kept. */
  lemma DottedSegmentExample(q: string)
    requires q == "some/png.png"
    ensures FileNameOf("/" + q) == Ok("some.png.png.ts")
  {
    var parts := ["some", "png.png"];
    DottedSegmentSplit(q);
    JoinSplit(parts, '/');
    DottedSegmentConverted();
    FileNameOfSegments(q);
    LeadingSlashIgnored(q);
  }

  lemma DottedSegmentSplit(q: string)
    requires q == "some/png.png"
    ensures Join(["some", "png.png"], '/') == q
  {
    assert ["some", "png.png"][1..] == ["png.png"];
  }

  lemma DottedSegmentConverted()
    ensures Join(ConvertAll(["some", "png.png"]), '.') + ".ts" == "some.png.png.ts"
  {
    var conv := ConvertAll(["some", "png.png"]);
    assert conv[0] == "some" && conv[1] == "png.png";
    assert conv == ["some", "png.png"];
    assert conv[1..] == ["png.png"];
  }
}
