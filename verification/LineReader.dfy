/** How xmlrcsd cuts the bytes of a connection into command lines: carriage returns are dropped
    wherever they stand and a line feed ends the line.  Client::ReadLine in src/xmlrcsd/client.cpp. */
module LineReader {
  import opened Base

  /** The complete lines of `input` when `partial` has been read already. */
  function Lines(partial: string, input: string): seq<string>
    decreases |input|
  {
    if input == [] then []
    else if input[0] == '\r' then Lines(partial, input[1..])
    else if input[0] == '\n' then [partial] + Lines("", input[1..])
    else Lines(partial + [input[0]], input[1..])
  }

  /** What has been read of the line after the last complete one. */
  function Tail(partial: string, input: string): string
    decreases |input|
  {
    if input == [] then partial
    else if input[0] == '\r' then Tail(partial, input[1..])
    else if input[0] == '\n' then Tail("", input[1..])
    else Tail(partial + [input[0]], input[1..])
  }

  lemma {:induction false} LinesAppend(partial: string, a: string, b: string)
    ensures Lines(partial, a + b) == Lines(partial, a) + Lines(Tail(partial, a), b)
    ensures Tail(partial, a + b) == Tail(Tail(partial, a), b)
    decreases |a|
  {
    if a == [] {
      assert a + b == b;
    } else {
      assert (a + b)[1..] == a[1..] + b;
      var next := if a[0] == '\r' then partial else if a[0] == '\n' then "" else partial + [a[0]];
      LinesAppend(next, a[1..], b);
    }
  }

  /** A text without line breaks, ended in either convention, is read as exactly that line. */
  lemma {:induction false} LineReadBack(partial: string, text: string, crlf: bool)
    requires OneLine(text)
    ensures Lines(partial, text + (if crlf then "\r\n" else "\n")) == [partial + text]
    ensures Tail(partial, text + (if crlf then "\r\n" else "\n")) == ""
    decreases |text|
  {
    var eol := if crlf then "\r\n" else "\n";
    if text == [] {
      assert text + eol == eol && partial + text == partial;
      assert eol[|eol| - 1..] == "\n" && "\n"[1..] == [];
      assert Lines(partial, "\n") == [partial] + Lines("", "\n"[1..]);
      assert Lines(partial, "\n") == [partial] && Tail(partial, "\n") == "";
      if crlf {
        assert eol[1..] == "\n";
      }
    } else {
      assert text[0] in text;
      assert (text + eol)[1..] == text[1..] + eol;
      assert partial + [text[0]] + text[1..] == partial + text;
      LineReadBack(partial + [text[0]], text[1..], crlf);
    }
  }

  /** The text without its carriage returns. */
  function Stripped(s: string): string {
    if s == "" then "" else (if s[0] == '\r' then "" else [s[0]]) + Stripped(s[1..])
  }

  /** Carriage returns make no difference, wherever they stand. */
  lemma {:induction false} ReturnsIgnored(partial: string, input: string)
    ensures Lines(partial, Stripped(input)) == Lines(partial, input)
    ensures Tail(partial, Stripped(input)) == Tail(partial, input)
    decreases |input|
  {
    if input != "" {
      var rest := Stripped(input[1..]);
      if input[0] == '\r' {
        assert Stripped(input) == rest;
        ReturnsIgnored(partial, input[1..]);
      } else {
        assert Stripped(input) == [input[0]] + rest && Stripped(input)[1..] == rest;
        ReturnsIgnored(if input[0] == '\n' then "" else partial + [input[0]], input[1..]);
      }
    }
  }

  /** No line that comes out contains a line break. */
  lemma {:induction false} LinesHaveNoBreaks(partial: string, input: string)
    requires OneLine(partial)
    ensures forall l | l in Lines(partial, input) :: OneLine(l)
    ensures OneLine(Tail(partial, input))
    decreases |input|
  {
    if input != [] {
      var next := if input[0] == '\r' then partial else if input[0] == '\n' then "" else partial + [input[0]];
      LinesHaveNoBreaks(next, input[1..]);
    }
  }
}
