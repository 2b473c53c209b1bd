/**
 * Interest names as the handler sees them: the URI text of the name, a
 * sequence of components separated by '/'. The handler accepts exactly the
 * names of the shape
 *
 *     /thisRoom/pi/<digits>/led/<digits>/value/<on|off|toggle>
 *
 * (a regular expression anchored at both ends in the source). The model
 * states that shape once, as Render over a well-formed Command, and parses
 * names component by component; the two are proved to agree.
 */
module Names {
  import opened Wrappers

  const Separator: char := '/'

  /** The requested action; parsed, but every authorized request toggles. */
  datatype Action = On | Off | Toggle

  /** The three captured groups of the name pattern. */
  datatype Command = Command(code: string, led: string, action: Action)

  predicate IsDigit(c: char) {
    '0' <= c <= '9'
  }

  /** The regular-expression class `[0-9]+`: one or more ASCII digits. */
  predicate IsDigits(s: string) {
    |s| > 0 && forall i :: 0 <= i < |s| ==> IsDigit(s[i])
  }

  function ActionText(a: Action): string {
    match a
    case On => "on"
    case Off => "off"
    case Toggle => "toggle"
  }

  /** The alternative `(on|off|toggle)`. */
  function ParseAction(t: string): (r: Option<Action>)
    ensures forall a :: r == Some(a) <==> ActionText(a) == t
  {
    if t == "on" then Some(On)
    else if t == "off" then Some(Off)
    else if t == "toggle" then Some(Toggle)
    else None
  }

  /** Both numeric groups are digit strings. */
  predicate WellFormed(c: Command) {
    IsDigits(c.code) && IsDigits(c.led)
  }

  /** The name text a command is written as. */
  function Render(c: Command): string {
    "/thisRoom/pi/" + c.code + "/led/" + c.led + "/value/" + ActionText(c.action)
  }

  /** The anchored pattern: the whole name is the rendering of a well-formed command. */
  ghost predicate MatchesPattern(s: string) {
    exists c :: WellFormed(c) && s == Render(c)
  }

  /** The components of a rendered command, in order (the leading '/' gives an empty first one). */
  function Components(c: Command): seq<string> {
    ["", "thisRoom", "pi", c.code, "led", c.led, "value", ActionText(c.action)]
  }

  function Join(parts: seq<string>): string
    requires |parts| > 0
  {
    if |parts| == 1 then parts[0] else parts[0] + [Separator] + Join(parts[1..])
  }

  /** Splits a name at every separator; no part contains one. */
  function Split(s: string): (parts: seq<string>)
    ensures |parts| > 0
    ensures forall i :: 0 <= i < |parts| ==> Separator !in parts[i]
  {
    if s == [] then [""]
    else
      var rest := Split(s[1..]);
      if s[0] == Separator then [""] + rest
      else [[s[0]] + rest[0]] + rest[1..]
  }

  /** The handler's name match: Some(the three groups) or None. */
  function ParseName(s: string): Option<Command> {
    var p := Split(s);
    if |p| == 8 && p[0] == "" && p[1] == "thisRoom" && p[2] == "pi" && IsDigits(p[3])
       && p[4] == "led" && IsDigits(p[5]) && p[6] == "value" && ParseAction(p[7]).Some?
    then Some(Command(p[3], p[5], ParseAction(p[7]).value))
    else None
  }

  /** Joining the parts of a split gives the original text back. */
  lemma {:induction false} JoinSplit(s: string)
    ensures Join(Split(s)) == s
  {
    if s != [] {
      var rest := Split(s[1..]);
      JoinSplit(s[1..]);
      if s[0] == Separator {
        assert ([""] + rest)[1..] == rest;
      } else if |rest| > 1 {
        var parts := Split(s);
        assert parts[1..] == rest[1..];
        calc {
          Join(parts);
          ([s[0]] + rest[0]) + [Separator] + Join(rest[1..]);
          [s[0]] + (rest[0] + [Separator] + Join(rest[1..]));
          [s[0]] + s[1..];
        }
      }
    }
  }

  lemma {:induction false} SplitNoSeparator(p: string)
    requires Separator !in p
    ensures Split(p) == [p]
  {
    if p != [] {
      SplitNoSeparator(p[1..]);
      assert [p[0]] + p[1..] == p;
    }
  }

  lemma {:induction false} SplitAfterPart(p: string, t: string)
    requires Separator !in p
    ensures Split(p + [Separator] + t) == [p] + Split(t)
  {
    var s := p + [Separator] + t;
    if p == [] {
      assert s[1..] == t;
    } else {
      assert s[1..] == p[1..] + [Separator] + t;
      SplitAfterPart(p[1..], t);
      assert [p[0]] + p[1..] == p;
    }
  }

  /** Splitting a joined sequence of separator-free parts gives the parts back. */
  lemma {:induction false} SplitJoin(parts: seq<string>)
    requires |parts| > 0
    requires forall i :: 0 <= i < |parts| ==> Separator !in parts[i]
    ensures Split(Join(parts)) == parts
  {
    if |parts| == 1 {
      SplitNoSeparator(parts[0]);
    } else {
      SplitJoin(parts[1..]);
      SplitAfterPart(parts[0], Join(parts[1..]));
      assert [parts[0]] + parts[1..] == parts;
    }
  }

  lemma JoinCons(x: string, rest: seq<string>)
    requires |rest| > 0
    ensures Join([x] + rest) == x + [Separator] + Join(rest)
  {
  }

  lemma JoinedText(code: string, led: string, a: string)
    ensures Join(["", "thisRoom", "pi", code, "led", led, "value", a])
         == "/thisRoom/pi/" + code + "/led/" + led + "/value/" + a
  {
    var t6 := ["value", a];
    var t4 := ["led", led] + t6;
    var t2 := ["pi", code] + t4;
    assert ["", "thisRoom", "pi", code, "led", led, "value", a] == [""] + (["thisRoom"] + t2);
    assert t2 == ["pi"] + ([code] + t4);
    assert t4 == ["led"] + ([led] + t6);
    assert t6 == ["value"] + [a];
    calc {
      Join([""] + (["thisRoom"] + t2));
      { JoinCons("", ["thisRoom"] + t2); JoinCons("thisRoom", t2); }
      "/thisRoom/" + Join(["pi"] + ([code] + t4));
      { JoinCons("pi", [code] + t4); JoinCons(code, t4); }
      "/thisRoom/pi/" + code + "/" + Join(["led"] + ([led] + t6));
      { JoinCons("led", [led] + t6); JoinCons(led, t6); }
      "/thisRoom/pi/" + code + "/led/" + led + "/" + Join(["value"] + [a]);
      { JoinCons("value", [a]); }
      "/thisRoom/pi/" + code + "/led/" + led + "/value/" + a;
    }
  }

  /** A command's rendering is its components joined by the separator. */
  lemma RenderIsJoin(c: Command)
    ensures Render(c) == Join(Components(c))
  {
    JoinedText(c.code, c.led, ActionText(c.action));
  }

  /** A matched name is exactly the rendering of the well-formed command it yields. */
  lemma ParseNameSound(s: string)
    ensures ParseName(s).Some? ==> WellFormed(ParseName(s).value) && s == Render(ParseName(s).value)
  {
    if ParseName(s).Some? {
      var c := ParseName(s).value;
      var p := Split(s);
      assert ParseAction(p[7]) == Some(c.action);
      assert p == Components(c);
      JoinSplit(s);
      RenderIsJoin(c);
    }
  }

  /** Every well-formed command is recognised again from its rendering. */
  lemma ParseNameComplete(c: Command)
    requires WellFormed(c)
    ensures ParseName(Render(c)) == Some(c)
  {
    var p := Components(c);
    forall i | 0 <= i < |p| ensures Separator !in p[i] {
      if i == 3 || i == 5 {
        assert forall j :: 0 <= j < |p[i]| ==> IsDigit(p[i][j]);
      }
    }
    SplitJoin(p);
    RenderIsJoin(c);
    assert ParseAction(p[7]) == Some(c.action);
  }

  /** ParseName accepts exactly the names the anchored pattern matches. */
  lemma ParseNameMatchesPattern(s: string)
    ensures ParseName(s).Some? <==> MatchesPattern(s)
  {
    ParseNameSound(s);
    if MatchesPattern(s) {
      var c :| WellFormed(c) && s == Render(c);
      ParseNameComplete(c);
    }
  }

  /** Rendering is one-to-one on well-formed commands, so the groups of a name are unique. */
  lemma RenderInjective(c: Command, d: Command)
    requires WellFormed(c) && WellFormed(d) && Render(c) == Render(d)
    ensures c == d
  {
    ParseNameComplete(c);
    ParseNameComplete(d);
  }
}
