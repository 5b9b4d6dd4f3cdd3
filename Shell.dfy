/**
 * How `Action.executeCommand` turns one command line into a program and its
 * arguments: the line is cut at every single space (JavaScript's
 * `String.prototype.split(" ")`), the first piece names the program and the
 * rest are its arguments. There is no quoting, and runs of spaces give empty
 * arguments.
 */
module Shell {

  /** What is handed to the process spawner: a program name and its arguments. */
  datatype Invocation = Invocation(tool: string, args: seq<string>)

  /** Number of space characters in `s`. */
  function Spaces(s: string): nat
  {
    if s == [] then 0 else (if s[0] == ' ' then 1 else 0) + Spaces(s[1..])
  }

  /**
   * `s.split(" ")`: the maximal space-free pieces between single spaces, empty
   * pieces kept. There is always one more piece than there are spaces, and no
   * piece holds a space.
   */
  function Split(s: string): (pieces: seq<string>)
    ensures |pieces| == Spaces(s) + 1
    ensures forall i :: 0 <= i < |pieces| ==> ' ' !in pieces[i]
  {
    if s == [] then [""]
    else
      var rest := Split(s[1..]);
      if s[0] == ' ' then [""] + rest
      else [[s[0]] + rest[0]] + rest[1..]
  }

  /** The pieces glued back together with one space between neighbours. */
  function Join(pieces: seq<string>): string
    requires |pieces| >= 1
  {
    if |pieces| == 1 then pieces[0] else pieces[0] + " " + Join(pieces[1..])
  }

  /** Joining a first word to a non-empty list of further words. */
  lemma JoinFront(w: string, rest: seq<string>)
    requires |rest| >= 1
    ensures Join([w] + rest) == w + " " + Join(rest)
  {
    assert ([w] + rest)[1..] == rest;
  }

  /** Appending one more word to a joined line. */
  lemma {:induction false} JoinBack(words: seq<string>, last: string)
    requires |words| >= 1
    ensures Join(words + [last]) == Join(words) + " " + last
  {
    if |words| == 1 {
      JoinFront(words[0], [last]);
    } else {
      JoinBack(words[1..], last);
      assert (words + [last])[1..] == words[1..] + [last];
    }
  }

  /** Six words joined by single spaces. */
  lemma JoinSix(a: string, b: string, c: string, d: string, e: string, f: string)
    ensures Join([a, b, c, d, e, f]) == a + " " + b + " " + c + " " + d + " " + e + " " + f
    ensures Join([a] + [b, c, d, e, f]) == Join([a, b, c, d, e, f])
  {
    var w2 := [a, b];
    JoinFront(a, [b]);
    assert w2 == [a] + [b];
    JoinBack(w2, c); JoinBack(w2 + [c], d); JoinBack(w2 + [c] + [d], e); JoinBack(w2 + [c] + [d] + [e], f);
    assert w2 + [c] + [d] + [e] + [f] == [a, b, c, d, e, f];
    assert [a] + [b, c, d, e, f] == [a, b, c, d, e, f];
  }

  /** Seven words joined by single spaces. */
  lemma JoinSeven(a: string, b: string, c: string, d: string, e: string, f: string, g: string)
    ensures Join([a, b, c, d, e, f, g]) == a + " " + b + " " + c + " " + d + " " + e + " " + f + " " + g
    ensures Join([a] + [b, c, d, e, f, g]) == Join([a, b, c, d, e, f, g])
  {
    JoinSix(a, b, c, d, e, f);
    JoinBack([a, b, c, d, e, f], g);
    assert [a, b, c, d, e, f] + [g] == [a, b, c, d, e, f, g];
    assert [a] + [b, c, d, e, f, g] == [a, b, c, d, e, f, g];
  }

  /** Joining the pieces of a split gives back the line exactly. */
  lemma {:induction false} JoinSplit(s: string)
    ensures Join(Split(s)) == s
  {
    if s != [] {
      var rest := Split(s[1..]);
      JoinSplit(s[1..]);
      if s[0] == ' ' {
        assert Split(s)[1..] == rest;
        assert Join(Split(s)) == "" + " " + s[1..];
      } else if |rest| == 1 {
        assert Join(Split(s)) == [s[0]] + rest[0];
      } else {
        assert Split(s)[1..] == rest[1..];
        calc {
          Join(Split(s));
          ([s[0]] + rest[0]) + " " + Join(rest[1..]);
          [s[0]] + (rest[0] + " " + Join(rest[1..]));
          [s[0]] + Join(rest);
        }
      }
      assert [s[0]] + s[1..] == s;
    }
  }

  /** Splitting a space-free word followed by `s` extends the first piece of `s`. */
  lemma {:induction false} SplitAfterWord(w: string, s: string)
    requires ' ' !in w
    ensures Split(w + s) == [w + Split(s)[0]] + Split(s)[1..]
  {
    if w == [] {
      assert w + s == s;
      var pieces := Split(s);
      assert w + pieces[0] == pieces[0];
      assert [pieces[0]] + pieces[1..] == pieces;
    } else {
      assert (w + s)[1..] == w[1..] + s;
      assert w[0] in w;
      SplitAfterWord(w[1..], s);
      assert [w[0]] + (w[1..] + Split(s)[0]) == w + Split(s)[0];
    }
  }

  /** Pieces without spaces survive a join followed by a split unchanged. */
  lemma {:induction false} SplitJoin(pieces: seq<string>)
    requires |pieces| >= 1
    requires forall i :: 0 <= i < |pieces| ==> ' ' !in pieces[i]
    ensures Split(Join(pieces)) == pieces
  {
    if |pieces| == 1 {
      SplitAfterWord(pieces[0], "");
      assert pieces[0] + "" == pieces[0];
    } else {
      var tail := Join(pieces[1..]);
      SplitJoin(pieces[1..]);
      assert pieces[0] + " " + tail == pieces[0] + (" " + tail);
      SplitAfterWord(pieces[0], " " + tail);
      assert (" " + tail)[1..] == tail;
      assert Split(" " + tail) == [""] + pieces[1..];
      assert pieces[0] + "" == pieces[0];
      assert [pieces[0]] + pieces[1..] == pieces;
    }
  }

  /**
   * The first piece is the text before the first space: a space-free prefix of
   * the line that is followed by a space, or is the whole line.
   */
  lemma {:induction false} FirstPieceBeforeFirstSpace(s: string)
    ensures Split(s)[0] <= s
    ensures |Split(s)[0]| < |s| ==> s[|Split(s)[0]|] == ' '
  {
    if s != [] && s[0] != ' ' {
      FirstPieceBeforeFirstSpace(s[1..]);
      assert Split(s)[0] == [s[0]] + Split(s[1..])[0];
    }
  }

  /**
   * `executeCommand`'s argument handling: the program is the text before the
   * first space, there is one argument per space, and the program and its
   * arguments joined by single spaces give back the command line.
   */
  function Parse(command: string): (inv: Invocation)
    ensures inv.tool <= command && ' ' !in inv.tool
    ensures |inv.tool| < |command| ==> command[|inv.tool|] == ' '
    ensures |inv.args| == Spaces(command)
    ensures Join([inv.tool] + inv.args) == command
  {
    var pieces := Split(command);
    JoinSplit(command);
    FirstPieceBeforeFirstSpace(command);
    assert [pieces[0]] + pieces[1..] == pieces;
    Invocation(pieces[0], pieces[1..])
  }

  /** A line built from space-free words is parsed back into exactly those words. */
  lemma {:induction false} ParseJoin(tool: string, args: seq<string>)
    requires ' ' !in tool
    requires forall i :: 0 <= i < |args| ==> ' ' !in args[i]
    ensures Parse(Join([tool] + args)) == Invocation(tool, args)
  {
    var pieces := [tool] + args;
    forall i | 0 <= i < |pieces| ensures ' ' !in pieces[i] {
      if i > 0 { assert pieces[i] == args[i - 1]; }
    }
    SplitJoin(pieces);
    assert pieces[0] == tool && pieces[1..] == args;
  }
}
