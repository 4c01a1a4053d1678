/** Screenshots on X11 through the `xrandr` and ImageMagick `import` commands
    (electron/X11ScreenshotHelper.ts): the monitor list parsed from
    `xrandr --query`, and the capture of one monitor or of the whole root
    window. The commands' outputs and exit statuses are parameters. */
module X11Screenshot {
  import opened Outcomes
  import opened Text

  /** One monitor as the helper reports it. */
  datatype X11Display = X11Display(name: string, resolution: string, offset: string, primary: bool, connected: bool)

  /** What the line pattern `^(\S+)\s+connected\s+(primary\s+)?(\d+x\d+\+\d+\+\d+)`
      sees of a line: the output name, the two white-space gaps around
      `connected`, the gap after `primary` when that word is there, and the
      geometry with whatever follows it. */
  datatype LineParts = LineParts(name: string, gap: string, gap2: string, primaryGap: Option<string>, geom: Geom)

  /** `WxH+X+Y` as four digit strings, and the rest of the line after it. */
  datatype Geom = Geom(width: string, height: string, x: string, y: string, rest: string)

  predicate Digits(s: string) {
    s != [] && AllIn(s, Digit)
  }

  predicate Spaces(s: string) {
    s != [] && AllIn(s, Space)
  }

  /** The parts of a geometry the pattern matches: four non-empty digit runs,
      the last one taken to its end. */
  predicate GeomWellFormed(g: Geom) {
    && Digits(g.width) && Digits(g.height) && Digits(g.x) && Digits(g.y)
    && (g.rest == [] || !IsDigit(g.rest[0]))
  }

  /** The parts of a line the pattern matches: a non-empty run of non-space
      characters, non-empty runs of white space, and a geometry. */
  predicate WellFormed(p: LineParts) {
    && p.name != [] && AllIn(p.name, NonSpace)
    && Spaces(p.gap) && Spaces(p.gap2)
    && (p.primaryGap.Some? ==> Spaces(p.primaryGap.value))
    && GeomWellFormed(p.geom)
  }

  /** The third capture group, `WxH+X+Y`. */
  function Geometry(g: Geom): string {
    g.width + "x" + g.height + "+" + g.x + "+" + g.y
  }

  function RenderGeom(g: Geom): string {
    Geometry(g) + g.rest
  }

  /** `primary` and the white space after it, when the word is there. */
  function PrimaryText(primaryGap: Option<string>): string {
    if primaryGap.Some? then "primary" + primaryGap.value else ""
  }

  /** The line made of the given parts. */
  function Render(p: LineParts): string {
    p.name + (p.gap + ("connected" + (p.gap2 + (PrimaryText(p.primaryGap) + RenderGeom(p.geom)))))
  }

  /** The longest prefix of `s` made of class-`k` characters, and the rest:
      how far a greedy `\s+`, `\S+` or `\d+` reaches. Built up one
      character at a time so that the parser's proofs can use it as a pair. */
  function Lead(s: string, k: CharClass): (string, string) {
    if s != [] && In(s[0], k) then
      var (a, b) := Lead(s[1..], k);
      ([s[0]] + a, b)
    else ([], s)
  }

  lemma {:induction false} LeadSound(s: string, k: CharClass)
    ensures var (a, b) := Lead(s, k);
      AllIn(a, k) && (b == [] || !In(b[0], k)) && a + b == s
  {
    if s != [] && In(s[0], k) {
      LeadSound(s[1..], k);
      var (a, b) := Lead(s[1..], k);
      assert ([s[0]] + a) + b == [s[0]] + (a + b);
    }
  }

  lemma {:induction false} LeadOf(a: string, b: string, k: CharClass)
    requires AllIn(a, k)
    requires b == [] || !In(b[0], k)
    ensures Lead(a + b, k) == (a, b)
  {
    if a == [] {
      assert a + b == b;
    } else {
      assert (a + b)[1..] == a[1..] + b;
      LeadOf(a[1..], b, k);
      assert [a[0]] + a[1..] == a;
    }
  }

  /** A greedy `\s+`, `\S+` or `\d+` at the start of `s`: the non-empty run
      it takes and what is left. */
  function Token(s: string, k: CharClass): Option<(string, string)> {
    var (a, b) := Lead(s, k);
    if a != [] then Some((a, b)) else None
  }

  lemma TokenSound(s: string, k: CharClass)
    requires Token(s, k).Some?
    ensures var (a, b) := Token(s, k).value;
      a != [] && AllIn(a, k) && (b == [] || !In(b[0], k)) && a + b == s
  {
    LeadSound(s, k);
  }

  lemma TokenOf(a: string, b: string, k: CharClass)
    requires a != [] && AllIn(a, k)
    requires b == [] || !In(b[0], k)
    ensures Token(a + b, k) == Some((a, b))
  {
    LeadOf(a, b, k);
  }

  /** `\d+` followed by the separator `x` or `\+`. */
  function Field(s: string, sep: char): Option<(string, string)> {
    match Token(s, Digit)
    case None => None
    case Some((d, t)) => if t != [] && t[0] == sep then Some((d, t[1..])) else None
  }

  lemma FieldSound(s: string, sep: char)
    requires Field(s, sep).Some?
    ensures var (a, b) := Field(s, sep).value; Digits(a) && a + [sep] + b == s
  {
    TokenSound(s, Digit);
    var (d, t) := Token(s, Digit).value;
    assert t == [sep] + t[1..];
  }

  lemma FieldOf(a: string, sep: char, b: string)
    requires Digits(a) && !IsDigit(sep)
    ensures Field(a + [sep] + b, sep) == Some((a, b))
  {
    TokenOf(a, [sep] + b, Digit);
    assert a + [sep] + b == a + ([sep] + b);
  }

  /** Matches `\d+x\d+\+\d+\+\d+` at the start of `s`. */
  function ParseGeometry(s: string): Option<Geom> {
    match Field(s, 'x')
    case None => None
    case Some((w, s1)) =>
      match Field(s1, '+')
      case None => None
      case Some((h, s2)) =>
        match Field(s2, '+')
        case None => None
        case Some((x, s3)) =>
          match Token(s3, Digit)
          case None => None
          case Some((y, rest)) => Some(Geom(w, h, x, y, rest))
  }

  /** A geometry the parser accepts is well formed and is the text it was read from. */
  lemma ParseGeometrySound(s: string)
    requires ParseGeometry(s).Some?
    ensures GeomWellFormed(ParseGeometry(s).value)
    ensures RenderGeom(ParseGeometry(s).value) == s
  {
    var (w, s1) := Field(s, 'x').value;
    assert Digits(w) && s == w + ['x'] + s1 by { FieldSound(s, 'x'); }
    var (h, s2) := Field(s1, '+').value;
    assert Digits(h) && s1 == h + ['+'] + s2 by { FieldSound(s1, '+'); }
    var (x, s3) := Field(s2, '+').value;
    assert Digits(x) && s2 == x + ['+'] + s3 by { FieldSound(s2, '+'); }
    var (y, rest) := Token(s3, Digit).value;
    assert Digits(y) && (rest == [] || !IsDigit(rest[0])) && s3 == y + rest by { TokenSound(s3, Digit); }
    assert ParseGeometry(s) == Some(Geom(w, h, x, y, rest));
    assert s == w + "x" + h + "+" + x + "+" + y + rest;
  }

  /** Every well-formed geometry is read back into its parts. */
  lemma ParseGeometryComplete(g: Geom)
    requires GeomWellFormed(g)
    ensures ParseGeometry(RenderGeom(g)) == Some(g)
  {
    var t3 := g.y + g.rest;
    var t2 := g.x + ['+'] + t3;
    var t1 := g.height + ['+'] + t2;
    assert RenderGeom(g) == g.width + ['x'] + t1;
    assert Field(RenderGeom(g), 'x') == Some((g.width, t1)) by { FieldOf(g.width, 'x', t1); }
    assert Field(t1, '+') == Some((g.height, t2)) by { FieldOf(g.height, '+', t2); }
    assert Field(t2, '+') == Some((g.x, t3)) by { FieldOf(g.x, '+', t3); }
    assert Token(t3, Digit) == Some((g.y, g.rest)) by { TokenOf(g.y, g.rest, Digit); }
  }

  /** The optional group `(primary\s+)?`: taken when the word and at least
      one white-space character are there. */
  function Primary(s: string): (Option<string>, string) {
    if StartsWith(s, "primary") then
      match Token(s[7..], Space)
      case None => (None, s)
      case Some((gap, t)) => (Some(gap), t)
    else (None, s)
  }

  lemma PrimarySound(s: string)
    ensures var (pg, t) := Primary(s);
      && (pg.Some? ==> Spaces(pg.value) && s == "primary" + pg.value + t)
      && (pg.None? ==> t == s)
  {
    if StartsWith(s, "primary") && Token(s[7..], Space).Some? {
      TokenSound(s[7..], Space);
      assert s == "primary" + s[7..];
    }
  }

  lemma PrimaryOf(pg: Option<string>, t: string)
    requires pg.Some? ==> Spaces(pg.value)
    requires t != [] && IsDigit(t[0])
    ensures Primary(PrimaryText(pg) + t) == (pg, t)
  {
    if pg.Some? {
      var s := "primary" + pg.value + t;
      assert s[..7] == "primary";
      assert s[7..] == pg.value + t;
      TokenOf(pg.value, t, Space);
    } else {
      assert "" + t == t;
      assert !StartsWith(t, "primary") by {
        if |t| >= 7 {
          assert t[..7][0] == t[0];
        }
      }
    }
  }

  /** `connected\s+` after the first gap: the second gap and what follows it. */
  function Status(s: string): Option<(string, string)> {
    if StartsWith(s, "connected") then Token(s[9..], Space) else None
  }

  lemma StatusSound(s: string)
    requires Status(s).Some?
    ensures var (gap2, t) := Status(s).value; Spaces(gap2) && s == "connected" + (gap2 + t)
  {
    TokenSound(s[9..], Space);
    assert s == "connected" + s[9..];
  }

  lemma StatusOf(gap2: string, t: string)
    requires Spaces(gap2) && t != [] && !IsSpace(t[0])
    ensures Status("connected" + (gap2 + t)) == Some((gap2, t))
  {
    var s := "connected" + (gap2 + t);
    assert s[..9] == "connected";
    assert s[9..] == gap2 + t;
    TokenOf(gap2, t, Space);
  }

  /** `(primary\s+)?` and the geometry. */
  function Tail(s: string): Option<(Option<string>, Geom)> {
    var (primaryGap, t) := Primary(s);
    match ParseGeometry(t)
    case None => None
    case Some(g) => Some((primaryGap, g))
  }

  lemma TailSound(s: string)
    requires Tail(s).Some?
    ensures var (pg, g) := Tail(s).value;
      && (pg.Some? ==> Spaces(pg.value)) && GeomWellFormed(g)
      && s == PrimaryText(pg) + RenderGeom(g)
  {
    PrimarySound(s);
    var (pg, t) := Primary(s);
    ParseGeometrySound(t);
  }

  lemma TailOf(pg: Option<string>, g: Geom)
    requires pg.Some? ==> Spaces(pg.value)
    requires GeomWellFormed(g)
    ensures Tail(PrimaryText(pg) + RenderGeom(g)) == Some((pg, g))
  {
    var t := RenderGeom(g);
    assert t[0] == g.width[0];
    PrimaryOf(pg, t);
    ParseGeometryComplete(g);
  }

  /** The line pattern, which has no flags: `^` and the greedy runs leave
      it exactly one way to match, and this takes that way. */
  function ParseLine(line: string): Option<LineParts> {
    match Token(line, NonSpace)
    case None => None
    case Some((name, s1)) =>
      match Token(s1, Space)
      case None => None
      case Some((gap, s2)) =>
        match Status(s2)
        case None => None
        case Some((gap2, s3)) =>
          match Tail(s3)
          case None => None
          case Some((primaryGap, g)) => Some(LineParts(name, gap, gap2, primaryGap, g))
  }

  /** A line the pattern matches is made of well-formed parts, in order. */
  lemma ParseLineSound(line: string)
    requires ParseLine(line).Some?
    ensures WellFormed(ParseLine(line).value)
    ensures Render(ParseLine(line).value) == line
  {
    var (name, s1) := Token(line, NonSpace).value;
    assert name != [] && AllIn(name, NonSpace) && line == name + s1 by { TokenSound(line, NonSpace); }
    var (gap, s2) := Token(s1, Space).value;
    assert Spaces(gap) && s1 == gap + s2 by { TokenSound(s1, Space); }
    var (gap2, s3) := Status(s2).value;
    assert Spaces(gap2) && s2 == "connected" + (gap2 + s3) by { StatusSound(s2); }
    var (primaryGap, g) := Tail(s3).value;
    assert (primaryGap.Some? ==> Spaces(primaryGap.value)) && GeomWellFormed(g)
        && s3 == PrimaryText(primaryGap) + RenderGeom(g) by { TailSound(s3); }
    assert ParseLine(line) == Some(LineParts(name, gap, gap2, primaryGap, g));
  }

  /** Every line built from well-formed parts is matched, with those parts
      as its captures. */
  lemma ParseLineComplete(p: LineParts)
    requires WellFormed(p)
    ensures ParseLine(Render(p)) == Some(p)
  {
    var s3 := PrimaryText(p.primaryGap) + RenderGeom(p.geom);
    var s2 := "connected" + (p.gap2 + s3);
    var s1 := p.gap + s2;
    assert Render(p) == p.name + s1;
    assert s1[0] == p.gap[0];
    assert Token(Render(p), NonSpace) == Some((p.name, s1)) by { TokenOf(p.name, s1, NonSpace); }
    assert s2[0] == 'c';
    assert Token(s1, Space) == Some((p.gap, s2)) by { TokenOf(p.gap, s2, Space); }
    assert RenderGeom(p.geom)[0] == p.geom.width[0];
    assert s3[0] == 'p' || s3[0] == p.geom.width[0];
    assert Status(s2) == Some((p.gap2, s3)) by { StatusOf(p.gap2, s3); }
    assert Tail(s3) == Some((p.primaryGap, p.geom)) by { TailOf(p.primaryGap, p.geom); }
  }

  /** A line whose status word is `disconnected` lists no monitor. */
  lemma DisconnectedSkipped(name: string, gap: string, rest: string)
    requires name != [] && AllIn(name, NonSpace) && Spaces(gap)
    ensures ParseLine(name + gap + "disconnected" + rest).None?
  {
    var s2 := "disconnected" + rest;
    var line := name + gap + "disconnected" + rest;
    assert line == name + (gap + s2);
    assert Token(line, NonSpace) == Some((name, gap + s2)) by { TokenOf(name, gap + s2, NonSpace); }
    assert Token(gap + s2, Space) == Some((gap, s2)) by { TokenOf(gap, s2, Space); }
    assert Status(s2).None? by {
      if |s2| >= 9 {
        assert s2[..9][0] == 'd';
      }
    }
  }

  /** A line that starts with white space (a mode line of the listing)
      lists no monitor. */
  lemma IndentedSkipped(line: string)
    requires line != [] && IsSpace(line[0])
    ensures ParseLine(line).None?
  {
  }

  /** `geometry.split('+')` of a matched geometry: the resolution, then the
      two offsets. */
  lemma GeometryPieces(g: Geom)
    requires GeomWellFormed(g)
    ensures Split(Geometry(g), '+') == [g.width + "x" + g.height, g.x, g.y]
  {
    NoPlus(g.width);
    NoPlus(g.height);
    NoPlus(g.x);
    NoPlus(g.y);
    var res := g.width + "x" + g.height;
    assert '+' !in res by {
      assert forall i :: 0 <= i < |res| ==> res[i] == (if i < |g.width| then g.width[i] else if i == |g.width| then 'x' else g.height[i - |g.width| - 1]);
    }
    assert Geometry(g) == res + ['+'] + (g.x + ['+'] + g.y);
    SplitAt(res, g.x + ['+'] + g.y, '+');
    SplitAt(g.x, g.y, '+');
    SplitNone(g.y, '+');
  }

  lemma NoPlus(ds: string)
    requires AllIn(ds, Digit)
    ensures '+' !in ds
  {
    assert forall i :: 0 <= i < |ds| ==> ds[i] != '+';
  }

  /** The entry pushed for a matched line: the resolution is the first piece
      of the geometry, the offset is rebuilt from the two offsets read as
      decimal numbers. */
  function DisplayOf(p: LineParts): (d: X11Display)
    requires WellFormed(p)
    ensures d.name == p.name
    ensures d.resolution == p.geom.width + "x" + p.geom.height
    ensures d.offset == "+" + ShowNat(DecimalValue(p.geom.x)) + "+" + ShowNat(DecimalValue(p.geom.y))
    ensures d.primary <==> p.primaryGap.Some?
    ensures d.connected
  {
    GeometryPieces(p.geom);
    var pieces := Split(Geometry(p.geom), '+');
    var offsetX := DecimalValue(pieces[1]);
    var offsetY := DecimalValue(pieces[2]);
    X11Display(p.name, pieces[0], "+" + ShowNat(offsetX) + "+" + ShowNat(offsetY), p.primaryGap.Some?, true)
  }

  /** When xrandr prints the offsets without leading zeros, the geometry
      handed to `import` is the one xrandr printed. */
  lemma DisplayGeometry(p: LineParts)
    requires WellFormed(p)
    requires |p.geom.x| > 1 ==> p.geom.x[0] != '0'
    requires |p.geom.y| > 1 ==> p.geom.y[0] != '0'
    ensures DisplayOf(p).resolution + DisplayOf(p).offset == Geometry(p.geom)
  {
    ShowOfDecimal(p.geom.x);
    ShowOfDecimal(p.geom.y);
  }

  /** The monitor a line lists, if any. */
  function LineDisplay(line: string): (r: Option<X11Display>)
    ensures r.Some? ==> r.value.connected
  {
    match ParseLine(line)
    case None => None
    case Some(p) => ParseLineSound(line); Some(DisplayOf(p))
  }

  /** A line built from well-formed parts lists the monitor of those parts. */
  lemma LineDisplayOf(p: LineParts)
    requires WellFormed(p)
    ensures LineDisplay(Render(p)) == Some(DisplayOf(p))
  {
    ParseLineComplete(p);
  }

  /** The loop `for (const line of lines)` that pushes an entry for every
      line that yields one: the entries, in line order. */
  function Collect<T>(f: string -> Option<T>, lines: seq<string>): (r: seq<T>)
    ensures |r| <= |lines|
  {
    if lines == [] then []
    else
      var last := f(lines[|lines| - 1]);
      Collect(f, lines[..|lines| - 1]) + (if last.Some? then [last.value] else [])
  }

  /** An entry is collected exactly when some line yields it. */
  lemma {:induction false} CollectMember<T>(f: string -> Option<T>, lines: seq<string>, v: T)
    ensures v in Collect(f, lines) <==> exists i :: 0 <= i < |lines| && f(lines[i]) == Some(v)
  {
    if lines != [] {
      var init := lines[..|lines| - 1];
      CollectMember(f, init, v);
      assert forall i :: 0 <= i < |init| ==> init[i] == lines[i];
      if exists i :: 0 <= i < |lines| && f(lines[i]) == Some(v) {
        var i :| 0 <= i < |lines| && f(lines[i]) == Some(v);
        if i < |init| {
          assert f(init[i]) == Some(v);
        }
      }
    }
  }

  /** Collecting splits over the lines. */
  lemma {:induction false} CollectAppend<T>(f: string -> Option<T>, a: seq<string>, b: seq<string>)
    ensures Collect(f, a + b) == Collect(f, a) + Collect(f, b)
    decreases |b|
  {
    if b == [] {
      assert a + b == a;
    } else {
      var init := b[..|b| - 1];
      CollectAppend(f, a, init);
      assert (a + b)[..|a + b| - 1] == a + init;
    }
  }

  /** The list a whole `xrandr --query` output gives, in line order. */
  function Displays(lines: seq<string>): (r: seq<X11Display>)
    ensures |r| <= |lines|
  {
    Collect(LineDisplay, lines)
  }

  /** A monitor is listed exactly when some line lists it, and every listed
      monitor is marked connected. */
  lemma DisplaysMember(lines: seq<string>, d: X11Display)
    ensures d in Displays(lines) <==> exists i :: 0 <= i < |lines| && LineDisplay(lines[i]) == Some(d)
    ensures d in Displays(lines) ==> d.connected
  {
    CollectMember(LineDisplay, lines, d);
  }

  /** `getX11Displays`: the monitors of the `xrandr --query` output, line by
      line; a failure to run the command propagates. */
  method GetX11Displays(xrandr: Result<string>) returns (r: Result<seq<X11Display>>)
    ensures xrandr.Err? ==> r == Err(xrandr.error)
    ensures xrandr.Ok? ==> r == Ok(Displays(Split(xrandr.value, '\n')))
  {
    if xrandr.Err? {
      return Err(xrandr.error);
    }
    var lines := Split(xrandr.value, '\n');
    var displays: seq<X11Display> := [];
    var i := 0;
    while i < |lines|
      invariant 0 <= i <= |lines|
      invariant displays == Displays(lines[..i])
    {
      var line := lines[i];
      assert lines[..i + 1][..i] == lines[..i];
      assert lines[..i + 1][i] == line;
      var found := LineDisplay(line);
      if found.Some? {
        displays := displays + [found.value];
      }
      i := i + 1;
    }
    assert lines[..i] == lines;
    r := Ok(displays);
  }

  /** Index of the first monitor with the given name, or the length of the
      list when none has it (`displays.find`). */
  function FindIndex(displays: seq<X11Display>, name: string): (k: nat)
    ensures k <= |displays|
    ensures forall j :: 0 <= j < k ==> displays[j].name != name
    ensures k < |displays| ==> displays[k].name == name
  {
    if displays == [] then 0
    else if displays[0].name == name then 0
    else 1 + FindIndex(displays[1..], name)
  }

  /** The `import` command that captures one rectangle of the root window. */
  function CropCommand(geometry: string, outputPath: string): string {
    "import -window root -crop " + geometry + " \"" + outputPath + "\""
  }

  /** The `import` command that captures the whole root window. */
  function RootCommand(outputPath: string): string {
    "import -window root \"" + outputPath + "\""
  }

  /** `captureDisplay`: list the monitors, crop the first one with the
      name, and check that the file exists afterwards. `exec` is how the
      `import` command ends and `created` whether the file exists after it.
      Answers the command run, if any, and the outcome. */
  method CaptureDisplay(xrandr: Result<string>, displayName: string, outputPath: string, exec: Result<()>, created: bool)
    returns (command: Option<string>, r: Result<()>)
    ensures xrandr.Err? ==> command.None? && r == Err(xrandr.error)
    ensures xrandr.Ok? ==>
      var displays := Displays(Split(xrandr.value, '\n'));
      var k := FindIndex(displays, displayName);
      && (k == |displays| ==> command.None? && r == Err("Display " + displayName + " not found"))
      && (k < |displays| ==>
            && command == Some(CropCommand(displays[k].resolution + displays[k].offset, outputPath))
            && r == (if exec.Err? then exec else if created then Ok(()) else Err("Screenshot file was not created")))
    ensures r.Ok? <==> command.Some? && exec.Ok? && created
  {
    var listing := GetX11Displays(xrandr);
    if listing.Err? {
      return None, Err(listing.error);
    }
    var displays := listing.value;
    var k := FindIndex(displays, displayName);
    if k == |displays| {
      return None, Err("Display " + displayName + " not found");
    }
    var target := displays[k];
    var geometry := target.resolution + target.offset;
    command := Some(CropCommand(geometry, outputPath));
    if exec.Err? {
      return command, exec;
    }
    if !created {
      return command, Err("Screenshot file was not created");
    }
    r := Ok(());
  }

  /** The search passes over entries with other names. */
  lemma FindPastPrefix(before: seq<X11Display>, d: X11Display, after: seq<X11Display>)
    requires forall e :: e in before ==> e.name != d.name
    ensures FindIndex(before + [d] + after, d.name) == |before|
  {
    var all := before + [d] + after;
    assert all[|before|] == d;
    assert forall j :: 0 <= j < |before| ==> all[j] == before[j];
  }

  /** Capturing a monitor whose line xrandr printed without leading zeros in
      its offsets, and that no earlier line names, crops exactly the
      geometry xrandr printed for it. */
  lemma CaptureCropsListedGeometry(before: seq<string>, p: LineParts, after: seq<string>)
    requires WellFormed(p)
    requires |p.geom.x| > 1 ==> p.geom.x[0] != '0'
    requires |p.geom.y| > 1 ==> p.geom.y[0] != '0'
    requires forall d :: d in Displays(before) ==> d.name != p.name
    ensures var displays := Displays(before + [Render(p)] + after);
      var k := FindIndex(displays, p.name);
      k < |displays| && displays[k].resolution + displays[k].offset == Geometry(p.geom)
  {
    var line := Render(p);
    var mid := Displays([line]);
    assert mid == [DisplayOf(p)] by {
      LineDisplayOf(p);
      assert [line][..0] == [];
    }
    assert Displays(before + [line] + after) == Displays(before) + mid + Displays(after) by {
      CollectAppend(LineDisplay, before, [line]);
      CollectAppend(LineDisplay, before + [line], after);
    }
    DisplayGeometry(p);
    FindPastPrefix(Displays(before), DisplayOf(p), Displays(after));
  }

  /** `captureAllDisplays`: capture the whole root window and check that the
      file exists afterwards. */
  method CaptureAllDisplays(outputPath: string, exec: Result<()>, created: bool) returns (command: string, r: Result<()>)
    ensures command == RootCommand(outputPath)
    ensures exec.Err? ==> r == exec
    ensures exec.Ok? ==> (r.Ok? <==> created)
    ensures r.Err? && exec.Ok? ==> r.error == "Screenshot file was not created"
  {
    command := RootCommand(outputPath);
    if exec.Err? {
      return command, exec;
    }
    if !created {
      return command, Err("Screenshot file was not created");
    }
    r := Ok(());
  }

  /** `isImageMagickAvailable`: `which import` succeeded and printed
      something other than white space. */
  function IsImageMagickAvailable(which: Result<string>): (b: bool)
    ensures b <==> which.Ok? && !AllIn(which.value, Space)
  {
    match which
    case Err(_) => false
    case Ok(stdout) => TrimEmpty(stdout); |Trim(stdout)| > 0
  }
}
