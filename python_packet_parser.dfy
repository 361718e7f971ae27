/** The semantic decode stage: a loaded script whose `Parse` turns a packet
    into text, behind a reference that a reload replaces wholesale. */
module PacketParser {
  import opened Interface
  import opened Wrappers

  /** What one call of the loaded script's `Parse(packet)` does. */
  datatype ScriptOutcome =
    | Parsed(text: string)
      /** A MemberAccessException or one of its subclasses, e.g. the script
          has no `Parse` member. */
    | MemberAccessError(message: string)
      /** Any other exception, including a `Parse` result that is not a string. */
    | OtherError(message: string)

  /** A loaded script, seen only through what its `Parse` does. */
  type Script = seq<byte> -> ScriptOutcome

  const ScriptErrorPrefix := "Script error: "

  /** The terminator of the member-access fallback text, written out in the format string. */
  const CrLf := "\r\n"

  /** Environment.NewLine on the Windows platform the terminal runs on. */
  const NewLine := "\r\n"

  /** The text shown for one call of the script: its result, or the
      exception turned into text. The result type is a plain string: no
      exception escapes. */
  function InterpretOutcome(outcome: ScriptOutcome): (r: string)
    ensures outcome.Parsed? ==> r == outcome.text
    ensures outcome.MemberAccessError? ==>
      && |r| == |ScriptErrorPrefix| + |outcome.message| + |CrLf|
      && r[..|ScriptErrorPrefix|] == ScriptErrorPrefix
      && r[|ScriptErrorPrefix|..|r| - |CrLf|] == outcome.message
      && r[|r| - |CrLf|..] == CrLf
    ensures outcome.OtherError? ==>
      && |r| == |outcome.message| + |NewLine|
      && r[..|outcome.message|] == outcome.message
      && r[|outcome.message|..] == NewLine
  {
    match outcome
    case Parsed(text) => text
    case MemberAccessError(message) => ScriptErrorPrefix + message + CrLf
    case OtherError(message) => message + NewLine
  }

  /** Two failures of the same kind are shown as the same text only when
      their messages are the same: the fallback text loses nothing. */
  lemma ErrorTextDeterminesMessage(a: ScriptOutcome, b: ScriptOutcome)
    requires !a.Parsed? && !b.Parsed?
    requires a.MemberAccessError? == b.MemberAccessError?
    requires InterpretOutcome(a) == InterpretOutcome(b)
    ensures a == b
  {
    var ra, rb := InterpretOutcome(a), InterpretOutcome(b);
    if a.MemberAccessError? {
      assert a.message == ra[|ScriptErrorPrefix|..|ra| - |CrLf|];
      assert b.message == rb[|ScriptErrorPrefix|..|rb| - |CrLf|];
    } else {
      assert |a.message| == |ra| - |NewLine| == |b.message|;
      assert a.message == ra[..|a.message|];
      assert b.message == rb[..|b.message|];
    }
  }

  class PythonPacketParser {
    /** The script currently in use; a reload replaces it as a whole. */
    var script: Script

    /** Loads the script before returning, so `script` is set before the
        first packet is interpreted. */
    constructor (loaded: Script)
      ensures script == loaded
    {
      script := loaded;
    }

    /** Reloads the script. When loading fails the exception propagates
        before the assignment, so the previous script stays in use. */
    method UpdateScript(loaded: Result<Script, string>) returns (r: Outcome<string>)
      modifies this
      ensures loaded.Ok? ==> r == Pass && script == loaded.value
      ensures loaded.Err? ==> r == Fail(loaded.error) && script == old(script)
    {
      match loaded
      case Ok(s) =>
        script := s;
        r := Pass;
      case Err(e) =>
        r := Fail(e);
    }

    /** Decodes one packet with the script in use at the time of the call.
        A successful parse is returned unchanged; a failure becomes a line
        of text ending in a line terminator. */
    function InterpretPacket(packet: seq<byte>): (r: string)
      reads this
      ensures script(packet).Parsed? ==> r == script(packet).text
      ensures !script(packet).Parsed? ==> |r| >= 2 && r[|r| - 2..] == "\r\n"
      ensures script(packet).MemberAccessError? ==> r == ScriptErrorPrefix + script(packet).message + CrLf
      ensures script(packet).OtherError? ==> r == script(packet).message + NewLine
    {
      InterpretOutcome(script(packet))
    }
  }
}
