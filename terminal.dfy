/** The terminal transcript: how a message is shown (`formatMsg`) and the repaint that
    clears the screen and writes every message again, in order. */
module Terminal {
  import opened Messages
  import opened Effects

  /** The colour escape that starts the role label, and the one that starts the content. */
  const RoleColour := "\U{1b}[33m["
  const ContentColour := "]: \U{1b}[37m"

  /** `formatMsg(msg)`: the role in brackets, in yellow, then the content in white. */
  function FormatMsg(m: Message): string {
    RoleColour + RoleName(m.role) + ContentColour + m.content
  }

  /** Different messages are shown differently: the role is told by the first letter
      after the bracket, and the content is what follows the fixed label. */
  lemma {:induction false} FormatMsgInjective(a: Message, b: Message)
    requires FormatMsg(a) == FormatMsg(b)
    ensures a == b
  {
    var n := |RoleColour|;
    assert FormatMsg(a)[n] == RoleName(a.role)[0];
    assert FormatMsg(b)[n] == RoleName(b.role)[0];
    assert a.role == b.role;
    var k := |RoleColour + RoleName(a.role) + ContentColour|;
    assert FormatMsg(a)[k..] == a.content;
    assert FormatMsg(b)[k..] == b.content;
  }

  /** The lines a repaint writes for `ms`, one per message, in order. */
  function Lines(ms: seq<Message>): (r: seq<Event>)
    ensures |r| == |ms|
    ensures forall i :: 0 <= i < |ms| ==> r[i] == Printed(FormatMsg(ms[i]))
  {
    seq(|ms|, i requires 0 <= i < |ms| => Printed(FormatMsg(ms[i])))
  }

  /** Repainting after one more message writes one more line at the end. */
  lemma {:induction false} LinesAppend(ms: seq<Message>, m: Message)
    ensures Lines(ms + [m]) == Lines(ms) + [Printed(FormatMsg(m))]
  {
  }

  /** `ioStream.clear()` and then `messages.map(formatMsg).forEach(writeln)`. */
  method Repaint(ms: seq<Message>, world: World)
    modifies world
    ensures world.trace == old(world.trace) + [ScreenCleared] + Lines(ms)
    ensures world.files == old(world.files) && world.rows == old(world.rows)
  {
    world.ClearScreen();
    var i := 0;
    while i < |ms|
      invariant 0 <= i <= |ms|
      invariant world.trace == old(world.trace) + [ScreenCleared] + Lines(ms[..i])
      invariant world.files == old(world.files) && world.rows == old(world.rows)
    {
      world.Print(FormatMsg(ms[i]));
      LinesAppend(ms[..i], ms[i]);
      assert ms[..i + 1] == ms[..i] + [ms[i]];
      i := i + 1;
    }
    assert ms[..i] == ms;
  }

  /** The lines `lines.forEach(writeln)` writes, in order. */
  function PrintedLines(lines: seq<string>): (r: seq<Event>)
    ensures |r| == |lines|
    ensures forall i :: 0 <= i < |lines| ==> r[i] == Printed(lines[i])
  {
    seq(|lines|, i requires 0 <= i < |lines| => Printed(lines[i]))
  }

  /** `lines.forEach(line => ioStream.writeln(line))`. */
  method WriteLines(lines: seq<string>, world: World)
    modifies world
    ensures world.trace == old(world.trace) + PrintedLines(lines)
    ensures world.files == old(world.files) && world.rows == old(world.rows)
  {
    var i := 0;
    while i < |lines|
      invariant 0 <= i <= |lines|
      invariant world.trace == old(world.trace) + PrintedLines(lines[..i])
      invariant world.files == old(world.files) && world.rows == old(world.rows)
    {
      world.Print(lines[i]);
      assert PrintedLines(lines[..i + 1]) == PrintedLines(lines[..i]) + [Printed(lines[i])];
      i := i + 1;
    }
    assert lines[..i] == lines;
  }
}
