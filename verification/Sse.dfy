/**
 Server-sent events: the writer of the streaming responses, and the reading of an event
 stream after section 9.2.6 of the WHATWG HTML standard, which gets the payloads back.
 */
module Sse {
  import opened Wrappers

  const DONE: string := "[DONE]"

  function Frame(payload: string): string { "data: " + payload + "\n\n" }

  function Frames(payloads: seq<string>): string {
    if payloads == [] then "" else Frame(payloads[0]) + Frames(payloads[1..])
  }

  /** The payloads of the values that can be marshalled; the others are skipped. */
  function Payloads<T>(marshal: T -> Option<string>, values: seq<T>): seq<string> {
    if values == [] then []
    else (match marshal(values[0]) case Some(p) => [p] case None => []) + Payloads(marshal, values[1..])
  }

  class SseWriter<T> {
    const marshal: T -> Option<string>
    var body: string

    constructor (marshal: T -> Option<string>)
      ensures this.marshal == marshal && body == ""
    {
      this.marshal := marshal;
      this.body := "";
    }

    method WriteJSON(v: T)
      modifies this
      ensures body == old(body) + Frames(Payloads(marshal, [v]))
      ensures body == old(body) + match marshal(v) case Some(data) => "data: " + data + "\n\n" case None => ""
    {
      assert [v][1..] == [];
      var data := marshal(v);
      if data == None {
        assert Frames([]) == "";
        return;
      }
      assert [data.value][1..] == [];
      body := body + ("data: " + data.value + "\n\n");
    }

    /** The final event, after the last value if there is one. */
    method WriteDone(final: Option<T>)
      modifies this
      ensures body == old(body) + Frames(Payloads(marshal, if final.Some? then [final.value] else []) + [DONE])
    {
      hide Frames, Payloads;
      if final.Some? {
        WriteJSON(final.value);
      }
      LastFrame(Payloads(marshal, if final.Some? then [final.value] else []));
      NoPayloads(marshal);
      body := body + "data: [DONE]\n\n";
    }
  }

  lemma {:induction false} FramesConcat(a: seq<string>, b: seq<string>)
    ensures Frames(a + b) == Frames(a) + Frames(b)
  {
    if a == [] {
      assert a + b == b;
    } else {
      FramesConcat(a[1..], b);
      assert (a + b)[1..] == a[1..] + b;
    }
  }

  lemma LastFrame(payloads: seq<string>)
    ensures Frames(payloads + [DONE]) == Frames(payloads) + "data: [DONE]\n\n"
  {
    FramesConcat(payloads, [DONE]);
    assert [DONE][1..] == [];
    assert Frame(DONE) == "data: [DONE]\n\n";
  }

  lemma NoPayloads<T>(marshal: T -> Option<string>)
    ensures Frames(Payloads(marshal, [])) == ""
  {
  }

  lemma {:induction false} PayloadsConcat<T>(marshal: T -> Option<string>, a: seq<T>, b: seq<T>)
    ensures Payloads(marshal, a + b) == Payloads(marshal, a) + Payloads(marshal, b)
  {
    if a == [] {
      assert a + b == b;
    } else {
      PayloadsConcat(marshal, a[1..], b);
      assert (a + b)[1..] == a[1..] + b;
    }
  }

  // ---------- Reading an event stream ----------

  predicate LineEnd(c: char) { c == '\n' || c == '\r' }

  predicate OneLine(s: string) { forall i :: 0 <= i < |s| ==> !LineEnd(s[i]) }

  /** The position of the first line end, or the length. */
  function LineLength(s: string): (n: nat)
    ensures n <= |s| && OneLine(s[..n]) && (n < |s| ==> LineEnd(s[n]))
  {
    if s == "" || LineEnd(s[0]) then 0 else 1 + LineLength(s[1..])
  }

  /** The first complete line and what follows its end: LF, CR, or CR and LF. */
  function NextLine(s: string): (l: Option<(string, string)>)
    ensures l.Some? ==> |l.value.1| < |s|
  {
    var n := LineLength(s);
    if n == |s| then None
    else if s[n] == '\r' && n + 1 < |s| && s[n + 1] == '\n' then Some((s[..n], s[n + 2..]))
    else Some((s[..n], s[n + 1..]))
  }

  function ColonAt(s: string): (n: nat)
    ensures n <= |s| && ':' !in s[..n] && (n < |s| ==> s[n] == ':')
  {
    if s == "" || s[0] == ':' then 0 else 1 + ColonAt(s[1..])
  }

  /** The data buffer after a line that is not blank; only the field `data` changes it. */
  function ProcessLine(buffer: string, line: string): string {
    var n := ColonAt(line);
    var field := line[..n];
    var rest := if n < |line| then line[n + 1..] else "";
    var value := if rest != "" && rest[0] == ' ' then rest[1..] else rest;
    if field == "data" then buffer + value + "\n" else buffer
  }

  /** The data of the events dispatched; an unfinished event at the end is discarded. */
  function Read(s: string, buffer: string): seq<string>
    decreases |s|
  {
    match NextLine(s)
    case None => []
    case Some((line, rest)) =>
      if line == "" then (if buffer == "" then [] else [buffer[..|buffer| - 1]]) + Read(rest, "")
      else Read(rest, ProcessLine(buffer, line))
  }

  function ReadStream(body: string): seq<string> {
    Read(if body != "" && body[0] == '\U{FEFF}' then body[1..] else body, "")
  }

  lemma {:induction false} LineLengthIs(line: string, rest: string)
    requires OneLine(line) && rest != "" && LineEnd(rest[0])
    ensures LineLength(line + rest) == |line|
  {
    if line == "" {
      assert line + rest == rest;
    } else {
      assert (line + rest)[1..] == line[1..] + rest;
      LineLengthIs(line[1..], rest);
    }
  }

  /** Reading one frame yields its payload and leaves the rest as it was. */
  lemma ReadFrame(payload: string, rest: string)
    requires OneLine(payload)
    ensures Read(Frame(payload) + rest, "") == [payload] + Read(rest, "")
  {
    var line, after := "data: " + payload, "\n" + rest;
    var s := Frame(payload) + rest;
    assert s == line + ("\n" + after);
    LineLengthIs(line, "\n" + after);
    assert s[..|line|] == line && s[|line| + 1..] == after;
    assert NextLine(s) == Some((line, after));
    DataLine(payload);
    LineLengthIs("", after);
    assert after[..0] == "" && after[1..] == rest;
    assert "" + after == after;
    assert NextLine(after) == Some(("", rest));
    assert (payload + "\n")[..|payload|] == payload;
  }

  lemma DataLine(payload: string)
    ensures ProcessLine("", "data: " + payload) == payload + "\n"
  {
    var line := "data: " + payload;
    assert line[1..][1..][1..][1..] == ": " + payload;
    assert ColonAt(line[1..][1..][1..][1..]) == 0;
    assert ColonAt(line[1..][1..][1..]) == 1;
    assert ColonAt(line[1..][1..]) == 2;
    assert ColonAt(line) == 4;
    assert line[..4] == "data";
    assert line[5..] == " " + payload;
    assert line[5..][1..] == payload;
    assert "" + payload + "\n" == payload + "\n";
  }

  /** Whatever payloads without line ends are written as frames, reading the stream gives exactly them back. */
  lemma {:induction false} ReadsBack(payloads: seq<string>)
    requires forall i :: 0 <= i < |payloads| ==> OneLine(payloads[i])
    ensures ReadStream(Frames(payloads)) == payloads
  {
    FramesRead(payloads);
    if payloads != [] { assert Frames(payloads)[0] == 'd'; }
  }

  lemma {:induction false} FramesRead(payloads: seq<string>)
    requires forall i :: 0 <= i < |payloads| ==> OneLine(payloads[i])
    ensures Read(Frames(payloads), "") == payloads
  {
    if payloads != [] {
      assert OneLine(payloads[0]);
      ReadFrame(payloads[0], Frames(payloads[1..]));
      FramesRead(payloads[1..]);
    }
  }

  /** Cutting the connection after some bytes of the next frame loses that frame only. */
  lemma {:induction false} CutStreamReadsPrefix(payloads: seq<string>, next: string, n: nat)
    requires (forall i :: 0 <= i < |payloads| ==> OneLine(payloads[i])) && OneLine(next)
    requires n < |Frame(next)|
    ensures Read(Frames(payloads) + Frame(next)[..n], "") == payloads
  {
    var tail := Frame(next)[..n];
    if payloads == [] {
      assert Frames(payloads) + tail == tail;
      UnfinishedFrame(next, n);
    } else {
      assert OneLine(payloads[0]);
      assert Frames(payloads) + tail == Frame(payloads[0]) + (Frames(payloads[1..]) + tail);
      ReadFrame(payloads[0], Frames(payloads[1..]) + tail);
      CutStreamReadsPrefix(payloads[1..], next, n);
    }
  }

  lemma UnfinishedFrame(payload: string, n: nat)
    requires OneLine(payload) && n < |Frame(payload)|
    ensures Read(Frame(payload)[..n], "") == []
  {
    var line := "data: " + payload;
    var s := Frame(payload)[..n];
    if n <= |line| {
      assert s == line[..n];
      NoLine(s);
    } else {
      assert s == line + "\n";
      LineLengthIs(line, "\n");
      assert s[..|line|] == line && s[|line| + 1..] == "";
      assert NextLine(s) == Some((line, ""));
      assert NextLine("") == None;
    }
  }

  lemma {:induction false} NoLine(s: string)
    requires OneLine(s)
    ensures LineLength(s) == |s|
  {
    if s != "" { NoLine(s[1..]); }
  }
}
