/** The profile text and the THREE.Shape commands updateShape builds from it
    (src/lathe.js, lines 76-92).

    The text is trimmed and split into lines on "\n". The first line is the
    start point: its trimmed text is split on " " and whatever comes first
    and second is taken as x and y, without any check. Every later line is
    trimmed and split on " " likewise, and dispatched on its number of
    pieces: two make a line-to, six a cubic Bezier, anything else nothing.
    Every y is negated on the way in. */
module Profile {
  import opened Numbers
  import opened Text

  /** The calls made on the THREE.Shape, in order. */
  datatype Command =
    | MoveTo(x: real, y: real)
    | LineTo(x: real, y: real)
    | BezierCurveTo(cp1x: real, cp1y: real, cp2x: real, cp2y: real, x: real, y: real)

  /** JavaScript's Number() on one token, left abstract, and the value taken
      for a coordinate the first line does not supply at all (the destructured
      undefined, which becomes NaN). */
  datatype Conversion = Conversion(number: string -> real, missing: real)

  /** inputText.trim().split("\n"): never empty. */
  function Lines(text: string): (r: seq<string>)
    ensures |r| >= 1
  {
    Split(Trim(text), '\n')
  }

  /** line.trim().split(" "): a doubled space gives an empty piece. */
  function Tokens(line: string): (r: seq<string>)
    ensures |r| >= 1
  {
    Split(Trim(line), ' ')
  }

  /** The start x of the profile, from the first token of the first line. */
  function StartX(text: string, conv: Conversion): real {
    conv.number(Tokens(Lines(text)[0])[0])
  }

  /** The start y of the profile, before negation: the second token of the
      first line, or the missing value when the line has a single piece. */
  function StartY(text: string, conv: Conversion): real {
    var t := Tokens(Lines(text)[0]);
    if |t| >= 2 then conv.number(t[1]) else conv.missing
  }

  /** What one later line contributes to the shape: a command exactly when
      the line has two or six pieces, and never a move. */
  function SegmentCommand(line: string, number: string -> real): (r: Option<Command>)
    ensures r.Some? <==> |Tokens(line)| == 2 || |Tokens(line)| == 6
    ensures r.Some? ==> !r.value.MoveTo?
  {
    var v := Tokens(line);
    if |v| == 2 then
      Some(LineTo(number(v[0]), -number(v[1])))
    else if |v| == 6 then
      Some(BezierCurveTo(number(v[0]), -number(v[1]), number(v[2]), -number(v[3]), number(v[4]), -number(v[5])))
    else
      None
  }

  /** The commands of the later lines, in input order. */
  function SegmentCommands(lines: seq<string>, number: string -> real): (r: seq<Command>)
    ensures |r| <= |lines|
    ensures forall i :: 0 <= i < |r| ==> !r[i].MoveTo?
  {
    if lines == [] then []
    else
      (match SegmentCommand(lines[0], number)
       case Some(c) => [c]
       case None => [])
      + SegmentCommands(lines[1..], number)
  }

  /** Every command updateShape issues on the shape: the move to the start
      point, then one command per well-formed later line, so never more
      commands than lines. */
  function ProfileCommands(text: string, conv: Conversion): (r: seq<Command>)
    ensures 1 <= |r| <= |Lines(text)|
    ensures r[0].MoveTo?
  {
    [MoveTo(StartX(text, conv), -StartY(text, conv))]
      + SegmentCommands(Lines(text)[1..], conv.number)
  }

  /** Lines are processed in order: the commands of a + b are those of a
      followed by those of b. */
  lemma {:induction false} SegmentCommandsAppend(a: seq<string>, b: seq<string>, number: string -> real)
    ensures SegmentCommands(a + b, number) == SegmentCommands(a, number) + SegmentCommands(b, number)
  {
    if a == [] {
      assert a + b == b;
    } else {
      assert (a + b)[0] == a[0];
      assert (a + b)[1..] == a[1..] + b;
      SegmentCommandsAppend(a[1..], b, number);
    }
  }

  /** The first command is the move to (startX, -startY), and no later
      command is a move: the outline is one connected path. */
  lemma StartsWithMove(text: string, conv: Conversion)
    ensures var c := ProfileCommands(text, conv);
      && c[0].MoveTo? && c[0].x == StartX(text, conv) && c[0].y == -StartY(text, conv)
      && forall i :: 1 <= i < |c| ==> !c[i].MoveTo?
  {
    var c := ProfileCommands(text, conv);
    var rest := SegmentCommands(Lines(text)[1..], conv.number);
    forall i | 1 <= i < |c|
      ensures !c[i].MoveTo?
    {
      assert c[i] == rest[i - 1];
    }
  }

  /** A line holding nothing but white space is one empty piece and adds nothing. */
  lemma BlankLineIgnored(line: string, number: string -> real)
    requires AllSpace(line)
    ensures SegmentCommand(line, number) == None
  {
    TrimBlank(line);
    assert Split([], ' ') == [[]];
  }

  /** A doubled space leaves an empty piece between the two numbers, so the
      line has three pieces and is ignored. */
  lemma DoubledSpaceIgnored(number: string -> real)
    ensures Tokens("1  2") == ["1", "", "2"]
    ensures SegmentCommand("1  2", number) == None
  {
    var s := "1  2";
    assert !IsSpace('1') && !IsSpace('2');
    assert SkipSpaces(s, 0) == 0;
    assert SkipSpacesBack(s, 0, 4) == 4;
    assert Trim(s) == s;
    assert IndexOf(s, ' ') == 1;
    assert s[..1] == "1" && s[2..] == " 2";
    assert IndexOf(" 2", ' ') == 0;
    assert " 2"[1..] == "2";
    assert IndexOf("2", ' ') == 1;
    assert Split("2", ' ') == ["2"];
    assert Split(" 2", ' ') == [""] + Split("2", ' ');
    assert Split(s, ' ') == ["1"] + Split(" 2", ' ');
  }

  /** In terms of the text: a line contributes a command exactly when its
      trimmed text holds one space (a line-to) or five spaces (a Bezier). */
  lemma Dispatch(line: string, number: string -> real)
    ensures SegmentCommand(line, number).Some? <==>
      (Occurrences(Trim(line), ' ') == 1 || Occurrences(Trim(line), ' ') == 5)
  {
    SplitCount(Trim(line), ' ');
  }

  /** "x y" with a single space between two tokens that hold no space and
      leave nothing to trim becomes the line-to (x, -y). */
  lemma TwoTokenLine(a: string, b: string, number: string -> real)
    requires a != [] && b != []
    requires ' ' !in a && ' ' !in b
    requires !IsSpace(a[0]) && !IsSpace(b[|b| - 1])
    ensures Tokens(a + " " + b) == [a, b]
    ensures SegmentCommand(a + " " + b, number) == Some(LineTo(number(a), -number(b)))
  {
    var line := a + " " + b;
    assert line[0] == a[0] && line[|line| - 1] == b[|b| - 1];
    TrimUntouched(line);
    assert Join([a, b], ' ') == line;
    SplitJoin([a, b], ' ');
  }

  /** "cp1x cp1y cp2x cp2y x y" with single spaces between six tokens that
      hold no space and leave nothing to trim becomes the cubic Bezier with
      all three y values negated. */
  lemma SixTokenLine(a: string, b: string, c: string, d: string, e: string, f: string, number: string -> real)
    requires a != [] && f != []
    requires ' ' !in a && ' ' !in b && ' ' !in c && ' ' !in d && ' ' !in e && ' ' !in f
    requires !IsSpace(a[0]) && !IsSpace(f[|f| - 1])
    ensures Tokens(a + " " + b + " " + c + " " + d + " " + e + " " + f) == [a, b, c, d, e, f]
    ensures SegmentCommand(a + " " + b + " " + c + " " + d + " " + e + " " + f, number)
         == Some(BezierCurveTo(number(a), -number(b), number(c), -number(d), number(e), -number(f)))
  {
    var line := a + " " + b + " " + c + " " + d + " " + e + " " + f;
    JoinSix(a, b, c, d, e, f);
    TokensOfJoin([a, b, c, d, e, f]);
  }

  /** The six pieces joined with single spaces. */
  lemma JoinSix(a: string, b: string, c: string, d: string, e: string, f: string)
    ensures Join([a, b, c, d, e, f], ' ') == a + " " + b + " " + c + " " + d + " " + e + " " + f
  {
    JoinCons(e, [f], ' ');
    JoinCons(d, [e, f], ' ');
    JoinCons(c, [d, e, f], ' ');
    JoinCons(b, [c, d, e, f], ' ');
    JoinCons(a, [b, c, d, e, f], ' ');
    assert [a] + [b, c, d, e, f] == [a, b, c, d, e, f];
    SeqAssoc6(a, b, c, d, e, f);
  }

  /** Pieces without spaces, joined with single spaces into a line with
      nothing to trim, are read back as exactly those pieces. */
  lemma TokensOfJoin(parts: seq<string>)
    requires |parts| >= 1
    requires forall i :: 0 <= i < |parts| ==> ' ' !in parts[i]
    requires var line := Join(parts, ' '); line != [] ==> !IsSpace(line[0]) && !IsSpace(line[|line| - 1])
    ensures Tokens(Join(parts, ' ')) == parts
  {
    TrimUntouched(Join(parts, ' '));
    SplitJoin(parts, ' ');
  }

  lemma SeqAssoc6(a: string, b: string, c: string, d: string, e: string, f: string)
    ensures a + " " + (b + " " + (c + " " + (d + " " + (e + " " + f))))
         == a + " " + b + " " + c + " " + d + " " + e + " " + f
  {
  }

  /** One more line processed: its command, if any, follows those of the lines before it. */
  lemma LinesStep(lines: seq<string>, i: nat, number: string -> real)
    requires i < |lines|
    ensures SegmentCommands(lines[..i + 1], number) == SegmentCommands(lines[..i], number)
      + (match SegmentCommand(lines[i], number) case Some(c) => [c] case None => [])
  {
    SegmentCommandsAppend(lines[..i], [lines[i]], number);
    assert lines[..i + 1] == lines[..i] + [lines[i]];
  }

  /** lines.slice(1).forEach(...): appends the command of each later line,
      in order, to the shape built so far. */
  method AddSegments(shape: seq<Command>, lines: seq<string>, number: string -> real)
    returns (commands: seq<Command>)
    ensures commands == shape + SegmentCommands(lines, number)
  {
    commands := shape;
    for i := 0 to |lines|
      invariant commands == shape + SegmentCommands(lines[..i], number)
    {
      ghost var done := SegmentCommands(lines[..i], number);
      var segment := SegmentCommand(lines[i], number);
      if segment.Some? {
        assert (shape + done) + [segment.value] == shape + (done + [segment.value]);
        commands := commands + [segment.value];
      }
      LinesStep(lines, i, number);
    }
    assert lines[..|lines|] == lines;
  }

  /** The shape-building part of updateShape: the move to the start point,
      then the later lines; startX is kept for the translation that follows. */
  method BuildShape(text: string, conv: Conversion) returns (commands: seq<Command>, startX: real)
    ensures commands == ProfileCommands(text, conv)
    ensures startX == StartX(text, conv)
  {
    var lines := Lines(text);
    var first := Tokens(lines[0]);
    startX := conv.number(first[0]);
    var startY := if |first| >= 2 then conv.number(first[1]) else conv.missing;
    commands := AddSegments([MoveTo(startX, -startY)], lines[1..], conv.number);
  }

  /** Lines joined with "\n", none holding a line feed and the whole leaving
      nothing to trim, are read back as exactly those lines. */
  lemma LinesOfJoin(lines: seq<string>)
    requires |lines| >= 1
    requires forall i :: 0 <= i < |lines| ==> '\n' !in lines[i]
    requires var text := Join(lines, '\n'); text != [] ==> !IsSpace(text[0]) && !IsSpace(text[|text| - 1])
    ensures Lines(Join(lines, '\n')) == lines
  {
    TrimUntouched(Join(lines, '\n'));
    SplitJoin(lines, '\n');
  }
}
