/** convert/convert.js: turns a flat list of style members, `member _.<engine>_<name>...`,
    into one engine type per run of members with the same engine name, carrying the `///`
    documentation comments along, and ends with a field and a member per engine. */
module CssConvert {
  import opened JsValues

  /** The five groups of the member pattern: the engine name, the member name, the
      argument text, the CSS property name and the CSS value. */
  datatype MemberMatch = MemberMatch(fsname: string, fsvalue: string, args: string, cssname: string, cssvalue: string)

  /** A line of the output, before it is printed. */
  datatype OutLine =
    | Blank
    | EngineHeader(name: string)
    | DocComment(text: string)
    | StyleMember(m: MemberMatch)
    | EngineField(name: string)
    | EngineMember(name: string)

  // ---- strings ---------------------------------------------------------------

  /** `capFst`: the first character upper-cased, the rest unchanged. */
  function CapFst(s: string): (r: string)
    ensures |r| == |s|
    ensures s != [] ==> r[0] == UpperChar(s[0])
    ensures forall i :: 1 <= i < |s| ==> r[i] == s[i]
  {
    if s == [] then s else [UpperChar(s[0])] + s[1..]
  }

  /** `src.split("\n")`: the pieces between newlines, at least one. */
  function Split(s: string): (pieces: seq<string>)
    ensures |pieces| >= 1
    ensures forall i :: 0 <= i < |pieces| ==> '\n' !in pieces[i]
  {
    if s == [] then [""]
    else
      var rest := Split(s[1..]);
      if s[0] == '\n' then [""] + rest else [[s[0]] + rest[0]] + rest[1..]
  }

  /** The pieces joined with newlines: the inverse of `Split`. */
  function Join(pieces: seq<string>): string
    requires |pieces| >= 1
  {
    if |pieces| == 1 then pieces[0] else pieces[0] + "\n" + Join(pieces[1..])
  }

  lemma {:induction false} SplitJoin(s: string)
    ensures Join(Split(s)) == s
  {
    if s != [] {
      var rest := Split(s[1..]);
      SplitJoin(s[1..]);
      if s[0] == '\n' {
        assert Split(s) == [""] + rest;
        assert Split(s)[1..] == rest;
      } else {
        var pieces := Split(s);
        assert pieces == [[s[0]] + rest[0]] + rest[1..];
        if |rest| == 1 {
          assert Join(pieces) == [s[0]] + rest[0];
        } else {
          assert pieces[1..] == rest[1..];
          assert Join(rest) == rest[0] + "\n" + Join(rest[1..]);
        }
      }
    }
  }

  lemma {:induction false} SplitPrefix(p: string, rest: string)
    requires '\n' !in p
    ensures Split(p + rest) == [p + Split(rest)[0]] + Split(rest)[1..]
  {
    var after := Split(rest);
    if p != [] {
      assert (p + rest)[0] == p[0] && p[0] != '\n';
      assert (p + rest)[1..] == p[1..] + rest;
      SplitPrefix(p[1..], rest);
      var r := Split(p[1..] + rest);
      assert r[0] == p[1..] + after[0] && r[1..] == after[1..];
      assert Split(p + rest) == [[p[0]] + r[0]] + r[1..];
      assert [p[0]] + (p[1..] + after[0]) == p + after[0];
    } else {
      assert p + rest == rest && p + after[0] == after[0];
      assert after == [after[0]] + after[1..];
    }
  }

  /** Splitting the newline-joined pieces gives the pieces back. */
  lemma {:induction false} JoinSplit(pieces: seq<string>)
    requires |pieces| >= 1
    requires forall i :: 0 <= i < |pieces| ==> '\n' !in pieces[i]
    ensures Split(Join(pieces)) == pieces
  {
    if |pieces| == 1 {
      SplitPrefix(pieces[0], "");
      assert Split("") == [""];
      assert pieces[0] + "" == pieces[0];
      assert pieces == [pieces[0]];
    } else {
      var tail := Join(pieces[1..]);
      JoinSplit(pieces[1..]);
      SplitPrefix(pieces[0], "\n" + tail);
      assert ("\n" + tail)[0] == '\n' && ("\n" + tail)[1..] == tail;
      assert Split("\n" + tail) == [""] + pieces[1..];
      assert pieces[0] + "\n" + tail == pieces[0] + ("\n" + tail);
      assert Join(pieces) == pieces[0] + ("\n" + tail);
      assert pieces[0] + "" == pieces[0];
      assert pieces == [pieces[0]] + pieces[1..];
    }
  }

  /** `s` is all white space, in the sense of `\s` and `trimEnd`. */
  predicate AllWhiteSpace(s: string)
  {
    forall i :: 0 <= i < |s| ==> IsWhiteSpace(s[i])
  }

  /** `s.trimEnd()`. */
  function TrimEnd(s: string): (t: string)
    ensures |t| <= |s| && t == s[..|t|]
    ensures t == [] || !IsWhiteSpace(t[|t| - 1])
    ensures AllWhiteSpace(s[|t|..])
  {
    if s != [] && IsWhiteSpace(s[|s| - 1]) then TrimEnd(s[..|s| - 1]) else s
  }

  /** The index of the first line terminator at or after `from`; `|s|` when there is
      none. */
  function TerminatorFrom(s: string, from: nat): (t: nat)
    requires from <= |s|
    ensures from <= t <= |s|
    ensures t < |s| ==> IsLineTerminator(s[t])
    ensures forall k :: from <= k < t ==> !IsLineTerminator(s[k])
    decreases |s| - from
  {
    if from == |s| || IsLineTerminator(s[from]) then from else TerminatorFrom(s, from + 1)
  }

  /** The comment pattern can match at `p`: "///" starts there, `(.*)` runs to the next
      line terminator, and only white space follows up to the end of the line. */
  predicate CommentAt(line: string, p: nat)
  {
    p + 3 <= |line| && line[p..p + 3] == "///" && AllWhiteSpace(line[TerminatorFrom(line, p + 3)..])
  }

  function CommentFrom(line: string, p: nat): Option<string>
    requires p <= |line|
    decreases |line| - p
  {
    if p + 3 > |line| then None
    else if CommentAt(line, p) then Some(line[p + 3..TerminatorFrom(line, p + 3)])
    else CommentFrom(line, p + 1)
  }

  /** The first group of the comment pattern matched against `line`, tried from the
      left; `None` when it does not match. */
  function CommentMatch(line: string): Option<string>
  {
    CommentFrom(line, 0)
  }

  lemma {:induction false} CommentFromNone(line: string, p: nat)
    requires p <= |line|
    ensures CommentFrom(line, p).None? <==> forall q: nat :: p <= q ==> !CommentAt(line, q)
    decreases |line| - p
  {
    if p + 3 <= |line| && !CommentAt(line, p) {
      CommentFromNone(line, p + 1);
    }
  }

  lemma {:induction false} CommentFromSome(line: string, p: nat)
    requires p <= |line|
    requires CommentFrom(line, p).Some?
    ensures exists q: nat :: p <= q && CommentAt(line, q) && (forall k: nat :: p <= k < q ==> !CommentAt(line, k))
              && CommentFrom(line, p).value == line[q + 3..TerminatorFrom(line, q + 3)]
    decreases |line| - p
  {
    if !CommentAt(line, p) {
      CommentFromSome(line, p + 1);
      var q: nat :| p + 1 <= q && CommentAt(line, q) && (forall k: nat :: p + 1 <= k < q ==> !CommentAt(line, k))
                    && CommentFrom(line, p + 1).value == line[q + 3..TerminatorFrom(line, q + 3)];
      assert forall k: nat :: p <= k < q ==> !CommentAt(line, k);
    }
  }

  /** The comment pattern matches exactly when some "///" is followed, after the next line
      terminator, by white space alone; the group is the text from the leftmost such
      "///" up to that terminator. */
  lemma CommentMatchMeaning(line: string)
    ensures CommentMatch(line).None? <==> forall q: nat :: !CommentAt(line, q)
    ensures CommentMatch(line).Some? ==>
              exists q: nat :: CommentAt(line, q) && (forall k: nat :: k < q ==> !CommentAt(line, k))
                && CommentMatch(line).value == line[q + 3..TerminatorFrom(line, q + 3)]
  {
    CommentFromNone(line, 0);
    if CommentMatch(line).Some? {
      CommentFromSome(line, 0);
    }
  }

  /** An indented documentation comment, possibly followed by white space that starts
      with a line terminator (a carriage return, say), yields its text. */
  lemma {:induction false} DocCommentLine(indent: string, text: string, tail: string)
    requires AllWhiteSpace(indent) && AllWhiteSpace(tail)
    requires forall i :: 0 <= i < |text| ==> !IsLineTerminator(text[i])
    requires tail == [] || IsLineTerminator(tail[0])
    ensures CommentMatch(indent + "///" + text + tail) == Some(text)
  {
    var line := indent + "///" + text + tail;
    var p := |indent|;
    assert line[p..p + 3] == "///";
    assert line[p + 3..p + 3 + |text|] == text;
    assert line[p + 3 + |text|..] == tail;
    var t := TerminatorFrom(line, p + 3);
    if p + 3 + |text| < |line| {
      assert line[p + 3 + |text|] == tail[0];
    }
    assert t == p + 3 + |text|;
    assert CommentAt(line, p);
    forall k: nat | k < p ensures !CommentAt(line, k) {
      assert line[k] == indent[k];
    }
    CommentMatchMeaning(line);
    var q: nat :| CommentAt(line, q) && (forall k: nat :: k < q ==> !CommentAt(line, k))
             && CommentMatch(line).value == line[q + 3..TerminatorFrom(line, q + 3)];
    assert q == p;
  }

  // ---- the conversion --------------------------------------------------------

  /** The converter's variables: the current engine name, the comments waiting for the
      next member, the engines declared so far, and the lines printed so far. */
  datatype ConvState = ConvState(current: string, comments: seq<string>, engines: seq<string>, out: seq<OutLine>)

  function Docs(comments: seq<string>): (docs: seq<OutLine>)
    ensures |docs| == |comments|
    ensures forall i :: 0 <= i < |comments| ==> docs[i] == DocComment(comments[i])
  {
    seq(|comments|, i requires 0 <= i < |comments| => DocComment(comments[i]))
  }

  /** The type header a member line prints when its engine is new. */
  function Head(current: string, m: MemberMatch): seq<OutLine>
  {
    if m.fsname != current then [Blank, EngineHeader(m.fsname)] else []
  }

  /** One pass of the loop over the lines. A line the member pattern matches prints a
      blank line and a type header when its engine name differs from the current one,
      then the waiting comments, then the member; any other line whose comment pattern
      matches adds the trimmed comment text to the waiting ones. */
  function Step(st: ConvState, line: string, matchMember: string -> Option<MemberMatch>): ConvState
  {
    match matchMember(line)
    case Some(m) =>
      var newEngine := m.fsname != st.current;
      ConvState(m.fsname, [], st.engines + (if newEngine then [m.fsname] else []),
                st.out + Head(st.current, m) + Docs(st.comments) + [StyleMember(m)])
    case None =>
      match CommentMatch(line)
      case Some(c) => st.(comments := st.comments + [TrimEnd(c)])
      case None => st
  }

  /** The state after the loop over `lines`, from the initial empty state. */
  function Run(lines: seq<string>, matchMember: string -> Option<MemberMatch>): ConvState
  {
    if lines == [] then ConvState("", [], [], [])
    else Step(Run(lines[..|lines| - 1], matchMember), lines[|lines| - 1], matchMember)
  }

  function EngineFields(engines: seq<string>): seq<OutLine>
  {
    seq(|engines|, i requires 0 <= i < |engines| => EngineField(engines[i]))
  }

  function EngineMembers(engines: seq<string>): seq<OutLine>
  {
    seq(|engines|, i requires 0 <= i < |engines| => EngineMember(engines[i]))
  }

  /** The lines printed after the loop: a blank line, a field per engine, a blank line and
      a member per engine, both in declaration order. */
  function Trailer(engines: seq<string>): seq<OutLine>
  {
    [Blank] + EngineFields(engines) + [Blank] + EngineMembers(engines)
  }

  /** Everything the script prints. Comments still waiting after the last member are
      dropped. */
  function Output(src: string, matchMember: string -> Option<MemberMatch>): seq<OutLine>
  {
    var st := Run(Split(src), matchMember);
    st.out + Trailer(st.engines)
  }

  /** The text `console.log` prints for a line. */
  function Render(o: OutLine): string
  {
    match o
    case Blank => ""
    case EngineHeader(name) => "type Css" + CapFst(name) + "Engine<'Style>(h: CssHelper<'Style>) ="
    case DocComment(text) => "    ///" + text
    case StyleMember(m) =>
      "    member _." + m.fsvalue + m.args + " = h.MakeStyle(\"" + m.cssname + "\", \"" + m.cssvalue + "\")"
    case EngineField(name) => "    let _" + name + " = Css" + CapFst(name) + "Engine(h)"
    case EngineMember(name) => "    member _." + name + " = _" + name
  }

  function RenderAll(xs: seq<OutLine>): seq<string>
  {
    seq(|xs|, i requires 0 <= i < |xs| => Render(xs[i]))
  }

  lemma RenderAllAppend(a: seq<OutLine>, b: seq<OutLine>)
    ensures RenderAll(a + b) == RenderAll(a) + RenderAll(b)
  {
    assert forall i :: 0 <= i < |a + b| ==> RenderAll(a + b)[i] == (RenderAll(a) + RenderAll(b))[i];
  }

  /** The loop over the waiting comments. */
  method PrintComments(comments: seq<string>) returns (printed: seq<string>)
    ensures printed == RenderAll(Docs(comments))
  {
    printed := [];
    for j := 0 to |comments|
      invariant printed == RenderAll(Docs(comments[..j]))
    {
      assert Docs(comments[..j + 1]) == Docs(comments[..j]) + [DocComment(comments[j])];
      RenderAllAppend(Docs(comments[..j]), [DocComment(comments[j])]);
      printed := printed + ["    ///" + comments[j]];
    }
    assert comments[..|comments|] == comments;
  }

  /** The branch of the loop for a line the member pattern matches. */
  method PrintMember(current: string, comments: seq<string>, engines: seq<string>, printed: seq<string>,
                     member: MemberMatch, ghost out: seq<OutLine>)
    returns (current': string, engines': seq<string>, printed': seq<string>)
    requires printed == RenderAll(out)
    ensures current' == member.fsname
    ensures engines' == engines + (if member.fsname != current then [member.fsname] else [])
    ensures printed' == RenderAll(out + (if member.fsname != current then [Blank, EngineHeader(member.fsname)] else [])
                                  + Docs(comments) + [StyleMember(member)])
  {
    current', engines', printed' := current, engines, printed;
    ghost var head: seq<OutLine> := [];
    if member.fsname != current {
      printed' := printed' + [""];
      printed' := printed' + ["type Css" + CapFst(member.fsname) + "Engine<'Style>(h: CssHelper<'Style>) ="];
      current' := member.fsname;
      engines' := engines' + [member.fsname];
      head := [Blank, EngineHeader(member.fsname)];
      RenderAllAppend(out, head);
      assert RenderAll(head) == ["", Render(EngineHeader(member.fsname))];
    }
    assert printed' == RenderAll(out + head);
    var docs := PrintComments(comments);
    printed' := printed' + docs;
    RenderAllAppend(out + head, Docs(comments));
    assert printed' == RenderAll(out + head + Docs(comments));
    RenderAllAppend(out + head + Docs(comments), [StyleMember(member)]);
    printed' := printed' + ["    member _." + member.fsvalue + member.args + " = h.MakeStyle(\""
                            + member.cssname + "\", \"" + member.cssvalue + "\")"];
    assert RenderAll([StyleMember(member)]) == [Render(StyleMember(member))];
  }

  /** One pass of the loop over the lines, on the script's variables. */
  method ConvertLine(current: string, comments: seq<string>, engines: seq<string>, printed: seq<string>,
                     line: string, matchMember: string -> Option<MemberMatch>, ghost st: ConvState)
    returns (current': string, comments': seq<string>, engines': seq<string>, printed': seq<string>)
    requires current == st.current && comments == st.comments && engines == st.engines
    requires printed == RenderAll(st.out)
    ensures var st' := Step(st, line, matchMember);
            current' == st'.current && comments' == st'.comments && engines' == st'.engines
            && printed' == RenderAll(st'.out)
  {
    var m := matchMember(line);
    if m.Some? {
      current', engines', printed' := PrintMember(current, comments, engines, printed, m.value, st.out);
      comments' := [];
    } else {
      current', comments', engines', printed' := current, comments, engines, printed;
      var m2 := CommentMatch(line);
      if m2.Some? {
        comments' := comments' + [TrimEnd(m2.value)];
      }
    }
  }

  /** The two loops over the engines after the main loop. */
  method PrintTrailer(engines: seq<string>) returns (printed: seq<string>)
    ensures printed == RenderAll(Trailer(engines))
  {
    printed := [""];
    for i := 0 to |engines|
      invariant printed == RenderAll([Blank] + EngineFields(engines[..i]))
    {
      var name := engines[i];
      assert EngineFields(engines[..i + 1]) == EngineFields(engines[..i]) + [EngineField(name)];
      RenderAllAppend([Blank] + EngineFields(engines[..i]), [EngineField(name)]);
      printed := printed + ["    let _" + name + " = Css" + CapFst(name) + "Engine(h)"];
    }
    assert engines[..|engines|] == engines;
    ghost var fields := [Blank] + EngineFields(engines);
    printed := printed + [""];
    RenderAllAppend(fields, [Blank]);
    for i := 0 to |engines|
      invariant printed == RenderAll(fields + [Blank] + EngineMembers(engines[..i]))
    {
      var name := engines[i];
      assert EngineMembers(engines[..i + 1]) == EngineMembers(engines[..i]) + [EngineMember(name)];
      RenderAllAppend(fields + [Blank] + EngineMembers(engines[..i]), [EngineMember(name)]);
      printed := printed + ["    member _." + name + " = _" + name];
    }
    assert engines[..|engines|] == engines;
  }

  /** The script: splits `src` into lines, converts them and prints the trailer. The
      member pattern is given as `matchMember`, the capture groups of its match on a
      line. */
  method Convert(src: string, matchMember: string -> Option<MemberMatch>) returns (printed: seq<string>)
    ensures printed == RenderAll(Output(src, matchMember))
  {
    var lines := Split(src);
    var current := "";
    var comments: seq<string> := [];
    var engines: seq<string> := [];
    printed := [];
    for i := 0 to |lines|
      invariant var st := Run(lines[..i], matchMember);
                current == st.current && comments == st.comments && engines == st.engines
                && printed == RenderAll(st.out)
    {
      assert lines[..i + 1][..i] == lines[..i];
      current, comments, engines, printed :=
        ConvertLine(current, comments, engines, printed, lines[i], matchMember, Run(lines[..i], matchMember));
    }
    assert lines[..|lines|] == lines;
    var trailer := PrintTrailer(engines);
    RenderAllAppend(Run(lines, matchMember).out, Trailer(engines));
    printed := printed + trailer;
  }

  // ---- properties ------------------------------------------------------------

  /** The capture groups of the lines the member pattern matches, in order. */
  function Matches(lines: seq<string>, matchMember: string -> Option<MemberMatch>): seq<MemberMatch>
  {
    if lines == [] then []
    else
      var last := matchMember(lines[|lines| - 1]);
      Matches(lines[..|lines| - 1], matchMember) + (if last.Some? then [last.value] else [])
  }

  /** The engine names of the lines the member pattern matches, in order. */
  function MemberNames(lines: seq<string>, matchMember: string -> Option<MemberMatch>): seq<string>
  {
    if lines == [] then []
    else
      var last := matchMember(lines[|lines| - 1]);
      MemberNames(lines[..|lines| - 1], matchMember) + (if last.Some? then [last.value.fsname] else [])
  }

  /** The trimmed comment texts of the other lines, in order. */
  function CommentTexts(lines: seq<string>, matchMember: string -> Option<MemberMatch>): seq<string>
  {
    if lines == [] then []
    else
      var last := lines[|lines| - 1];
      CommentTexts(lines[..|lines| - 1], matchMember)
        + (if matchMember(last).None? && CommentMatch(last).Some? then [TrimEnd(CommentMatch(last).value)] else [])
  }

  function LastOr(xs: seq<string>, default: string): string
  {
    if xs == [] then default else xs[|xs| - 1]
  }

  /** The names with every run of equal neighbours cut to one, and a leading run of
      empty names dropped. */
  function Collapse(names: seq<string>): seq<string>
  {
    if names == [] then []
    else
      var init := names[..|names| - 1];
      Collapse(init) + (if names[|names| - 1] == LastOr(init, "") then [] else [names[|names| - 1]])
  }

  function HeadersOf(out: seq<OutLine>): seq<string>
  {
    if out == [] then []
    else HeadersOf(out[..|out| - 1]) + (if out[|out| - 1].EngineHeader? then [out[|out| - 1].name] else [])
  }

  function StylesOf(out: seq<OutLine>): seq<MemberMatch>
  {
    if out == [] then []
    else StylesOf(out[..|out| - 1]) + (if out[|out| - 1].StyleMember? then [out[|out| - 1].m] else [])
  }

  function DocsOf(out: seq<OutLine>): seq<string>
  {
    if out == [] then []
    else DocsOf(out[..|out| - 1]) + (if out[|out| - 1].DocComment? then [out[|out| - 1].text] else [])
  }

  /** The engine of the last type header in `out`. */
  function LastHeader(out: seq<OutLine>): Option<string>
  {
    var headers := HeadersOf(out);
    if headers == [] then None else Some(headers[|headers| - 1])
  }

  lemma {:induction false} HeadersAppend(a: seq<OutLine>, b: seq<OutLine>)
    ensures HeadersOf(a + b) == HeadersOf(a) + HeadersOf(b)
  {
    if b == [] {
      assert a + b == a;
    } else {
      HeadersAppend(a, b[..|b| - 1]);
      assert (a + b)[..|a + b| - 1] == a + b[..|b| - 1];
    }
  }

  lemma {:induction false} StylesAppend(a: seq<OutLine>, b: seq<OutLine>)
    ensures StylesOf(a + b) == StylesOf(a) + StylesOf(b)
  {
    if b == [] {
      assert a + b == a;
    } else {
      StylesAppend(a, b[..|b| - 1]);
      assert (a + b)[..|a + b| - 1] == a + b[..|b| - 1];
    }
  }

  lemma {:induction false} DocsAppend(a: seq<OutLine>, b: seq<OutLine>)
    ensures DocsOf(a + b) == DocsOf(a) + DocsOf(b)
  {
    if b == [] {
      assert a + b == a;
    } else {
      DocsAppend(a, b[..|b| - 1]);
      assert (a + b)[..|a + b| - 1] == a + b[..|b| - 1];
    }
  }

  lemma {:induction false} FiltersOfDocs(comments: seq<string>)
    ensures HeadersOf(Docs(comments)) == [] && StylesOf(Docs(comments)) == []
    ensures DocsOf(Docs(comments)) == comments
  {
    if comments != [] {
      var init := comments[..|comments| - 1];
      FiltersOfDocs(init);
      assert Docs(comments)[..|comments| - 1] == Docs(init);
    }
  }

  lemma HeadersOfMemberStep(out: seq<OutLine>, current: string, comments: seq<string>, m: MemberMatch)
    ensures HeadersOf(out + Head(current, m) + Docs(comments))
              == HeadersOf(out) + (if m.fsname != current then [m.fsname] else [])
    ensures HeadersOf(out + Head(current, m) + Docs(comments) + [StyleMember(m)])
              == HeadersOf(out + Head(current, m) + Docs(comments))
  {
    var head := Head(current, m);
    if m.fsname != current {
      assert HeadersOf([Blank]) == [];
      assert head[..1] == [Blank];
      assert HeadersOf(head) == [m.fsname];
    } else {
      assert HeadersOf(head) == [];
    }
    FiltersOfDocs(comments);
    HeadersAppend(out, head);
    HeadersAppend(out + head, Docs(comments));
  }

  lemma StylesOfMemberStep(out: seq<OutLine>, current: string, comments: seq<string>, m: MemberMatch)
    ensures StylesOf(out + Head(current, m) + Docs(comments) + [StyleMember(m)]) == StylesOf(out) + [m]
  {
    var head := Head(current, m);
    if m.fsname != current {
      assert StylesOf([Blank]) == [];
      assert head[..1] == [Blank];
      assert StylesOf(head) == [];
    } else {
      assert StylesOf(head) == [];
    }
    FiltersOfDocs(comments);
    StylesAppend(out, head);
    StylesAppend(out + head, Docs(comments));
  }

  lemma DocsOfMemberStep(out: seq<OutLine>, current: string, comments: seq<string>, m: MemberMatch)
    ensures DocsOf(out + Head(current, m) + Docs(comments) + [StyleMember(m)]) == DocsOf(out) + comments
  {
    var head := Head(current, m);
    if m.fsname != current {
      assert DocsOf([Blank]) == [];
      assert head[..1] == [Blank];
      assert DocsOf(head) == [];
    } else {
      assert DocsOf(head) == [];
    }
    FiltersOfDocs(comments);
    DocsAppend(out, head);
    DocsAppend(out + head, Docs(comments));
  }

  /** What the loop leaves behind: the member lines printed are the matched lines, in
      order; every comment text is either printed or still waiting, in order; the
      engines are the member names with runs collapsed, one type header each, in order;
      and the current engine is the last member's. */
  lemma {:induction false} RunSummary(lines: seq<string>, matchMember: string -> Option<MemberMatch>)
    ensures var st := Run(lines, matchMember);
            && StylesOf(st.out) == Matches(lines, matchMember)
            && DocsOf(st.out) + st.comments == CommentTexts(lines, matchMember)
            && st.current == LastOr(MemberNames(lines, matchMember), "")
            && st.engines == Collapse(MemberNames(lines, matchMember))
            && HeadersOf(st.out) == st.engines
  {
    if lines != [] {
      var init := lines[..|lines| - 1];
      var line := lines[|lines| - 1];
      RunSummary(init, matchMember);
      var st := Run(init, matchMember);
      var names := MemberNames(lines, matchMember);
      match matchMember(line)
      case Some(m) =>
        assert names == MemberNames(init, matchMember) + [m.fsname];
        assert names[..|names| - 1] == MemberNames(init, matchMember);
        assert Matches(lines, matchMember) == Matches(init, matchMember) + [m];
        assert CommentTexts(lines, matchMember) == CommentTexts(init, matchMember);
        HeadersOfMemberStep(st.out, st.current, st.comments, m);
        StylesOfMemberStep(st.out, st.current, st.comments, m);
        DocsOfMemberStep(st.out, st.current, st.comments, m);
      case None =>
        assert MemberNames(lines, matchMember) == MemberNames(init, matchMember);
    }
  }

  /** With no empty engine name, the engines declared are exactly the member names. */
  lemma {:induction false} CollapseKeepsNames(names: seq<string>)
    requires "" !in names
    ensures forall x :: x in Collapse(names) <==> x in names
  {
    if names != [] {
      var init := names[..|names| - 1];
      assert names == init + [names[|names| - 1]];
      CollapseKeepsNames(init);
      if names[|names| - 1] == LastOr(init, "") {
        assert init[|init| - 1] in init;
      }
    }
  }

  /** Members of one engine stand together: two members of an engine have only members
      of that engine between them. */
  predicate Grouped(names: seq<string>)
  {
    forall i, j, k :: 0 <= i < j < k < |names| && names[i] == names[k] ==> names[j] == names[i]
  }

  lemma {:induction false} CollapseDistinct(names: seq<string>)
    requires "" !in names && Grouped(names)
    ensures forall i, j :: 0 <= i < j < |Collapse(names)| ==> Collapse(names)[i] != Collapse(names)[j]
  {
    if names != [] {
      var init := names[..|names| - 1];
      var last := names[|names| - 1];
      assert names == init + [last];
      CollapseDistinct(init);
      CollapseKeepsNames(init);
      var c := Collapse(init);
      if last != LastOr(init, "") {
        assert last !in c;
        assert Collapse(names) == c + [last];
      }
    }
  }

  /** When every member has a non-empty engine name and the members of each engine
      stand together, every engine is declared exactly once and every member's engine
      is declared. */
  lemma EnginesDeclaredOnce(lines: seq<string>, matchMember: string -> Option<MemberMatch>)
    requires "" !in MemberNames(lines, matchMember)
    requires Grouped(MemberNames(lines, matchMember))
    ensures var engines := Run(lines, matchMember).engines;
            && (forall i, j :: 0 <= i < j < |engines| ==> engines[i] != engines[j])
            && (forall x :: x in engines <==> x in MemberNames(lines, matchMember))
  {
    RunSummary(lines, matchMember);
    CollapseKeepsNames(MemberNames(lines, matchMember));
    CollapseDistinct(MemberNames(lines, matchMember));
  }

  /** Every member line in `out` has the type header of its own engine as the last
      header above it. */
  predicate UnderOwnHeader(out: seq<OutLine>)
  {
    forall i :: 0 <= i < |out| && out[i].StyleMember? ==> LastHeader(out[..i]) == Some(out[i].m.fsname)
  }

  lemma MemberStepHeaders(out: seq<OutLine>, current: string, comments: seq<string>, m: MemberMatch)
    requires m.fsname != ""
    requires LastHeader(out) == if current == "" then None else Some(current)
    requires UnderOwnHeader(out)
    ensures var out' := out + Head(current, m) + Docs(comments) + [StyleMember(m)];
            UnderOwnHeader(out') && LastHeader(out') == Some(m.fsname)
  {
    var before := out + Head(current, m) + Docs(comments);
    var out' := before + [StyleMember(m)];
    HeadersOfMemberStep(out, current, comments, m);
    assert LastHeader(before) == Some(m.fsname);
    forall i | 0 <= i < |out'| && out'[i].StyleMember?
      ensures LastHeader(out'[..i]) == Some(out'[i].m.fsname)
    {
      if i < |out| {
        assert out'[..i] == out[..i] && out'[i] == out[i];
      } else {
        assert out'[..i] == before;
      }
    }
  }

  /** Every member line is printed below the type header of its own engine, with no
      other header in between. */
  lemma {:induction false} MembersFollowTheirHeader(lines: seq<string>, matchMember: string -> Option<MemberMatch>)
    requires "" !in MemberNames(lines, matchMember)
    ensures UnderOwnHeader(Run(lines, matchMember).out)
    ensures var st := Run(lines, matchMember);
            LastHeader(st.out) == if st.current == "" then None else Some(st.current)
  {
    if lines != [] {
      var init := lines[..|lines| - 1];
      var line := lines[|lines| - 1];
      var st := Run(init, matchMember);
      match matchMember(line)
      case Some(m) =>
        assert MemberNames(lines, matchMember) == MemberNames(init, matchMember) + [m.fsname];
        MembersFollowTheirHeader(init, matchMember);
        MemberStepHeaders(st.out, st.current, st.comments, m);
      case None =>
        assert MemberNames(lines, matchMember) == MemberNames(init, matchMember);
        MembersFollowTheirHeader(init, matchMember);
    }
  }
}
