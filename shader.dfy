/**
 * Shader compilation as far as the library decides it: a non-empty
 * compiler log means failure, and the failure message shows the source with
 * its lines numbered (fmt_lines). The compiler itself is not modelled: its
 * log is a parameter.
 */
module Shader {
  import opened Vk
  import opened Deallocation
  import opened Sequences

  /** The decimal digit for 0..9. */
  function Digit(d: nat): (c: char)
    requires d < 10
    ensures '0' <= c <= '9'
  {
    (48 + d) as char
  }

  /** std::to_string of a non-negative number: its decimal digits, without leading zeros. */
  function DecimalString(n: nat): (s: string)
    ensures |s| >= 1 && '0' <= s[0] <= '9'
    ensures forall i :: 0 <= i < |s| ==> '0' <= s[i] <= '9'
    ensures |s| > 1 ==> s[0] != '0'
  {
    if n < 10 then [Digit(n)] else DecimalString(n / 10) + [Digit(n % 10)]
  }

  /** Reads a string of decimal digits back as a number. */
  function ParseDecimal(s: string): nat
    requires forall i :: 0 <= i < |s| ==> '0' <= s[i] <= '9'
  {
    if s == [] then 0 else ParseDecimal(s[..|s| - 1]) * 10 + (s[|s| - 1] as nat - 48)
  }

  /** The decimal rendering of a line number reads back as that number. */
  lemma {:induction false} DecimalRoundTrip(n: nat)
    ensures ParseDecimal(DecimalString(n)) == n
  {
    var s := DecimalString(n);
    if n >= 10 {
      DecimalRoundTrip(n / 10);
      assert s[..|s| - 1] == DecimalString(n / 10);
    }
  }

  /** The position of the first newline, or |s| when there is none. */
  function NewlineAt(s: string): (k: nat)
    ensures k <= |s|
    ensures forall i :: 0 <= i < k ==> s[i] != '\n'
    ensures k < |s| ==> s[k] == '\n'
  {
    if s == [] then 0 else if s[0] == '\n' then 0 else 1 + NewlineAt(s[1..])
  }

  /**
   * The lines std::getline extracts: the text split at each newline; a
   * final newline does not start another line, and empty text has none.
   */
  function Lines(s: string): seq<string>
    decreases |s|
  {
    if s == [] then []
    else
      var k := NewlineAt(s);
      if k == |s| then [s] else [s[..k]] + Lines(s[k + 1..])
  }

  /** One output line of fmt_lines. */
  function NumberedLine(n: nat, line: string): string
  {
    DecimalString(n) + ": " + line + "\n"
  }

  /** The lines numbered consecutively from `n`. */
  function Numbered(lines: seq<string>, n: nat): string
  {
    if lines == [] then "" else NumberedLine(n, lines[0]) + Numbered(lines[1..], n + 1)
  }

  /** The lines, each followed by a newline. */
  function JoinTerminated(lines: seq<string>): string
  {
    if lines == [] then "" else lines[0] + "\n" + JoinTerminated(lines[1..])
  }

  /** Splitting into lines and terminating each one again gives back the text, plus a final newline if it had none. */
  lemma {:induction false} LinesRoundTrip(s: string)
    ensures JoinTerminated(Lines(s)) == if s == [] || s[|s| - 1] == '\n' then s else s + "\n"
    decreases |s|
  {
    if s != [] {
      var k := NewlineAt(s);
      if k == |s| {
        assert Lines(s) == [s];
        JoinCons(s, []);
      } else {
        LinesSplit(s, k);
        JoinCons(s[..k], Lines(s[k + 1..]));
        LinesRoundTrip(s[k + 1..]);
        TerminatedAfterNewline(s, k, JoinTerminated(Lines(s[k + 1..])));
      }
    }
  }

  /** Text whose first newline is at `k` has the text before it as its first line. */
  lemma LinesSplit(s: string, k: nat)
    requires k == NewlineAt(s) && k < |s|
    ensures Lines(s) == [s[..k]] + Lines(s[k + 1..])
  {
  }

  /** Terminating the rest of a text after its first line terminates the whole text. */
  lemma TerminatedAfterNewline(s: string, k: nat, joined: string)
    requires k < |s| && s[k] == '\n'
    requires var rest := s[k + 1..]; joined == if rest == [] || rest[|rest| - 1] == '\n' then rest else rest + "\n"
    ensures s[..k] + "\n" + joined == if s[|s| - 1] == '\n' then s else s + "\n"
  {
    var head, rest := s[..k], s[k + 1..];
    assert s == head + "\n" + rest by {
      assert s[k..] == "\n" + rest;
      assert s == s[..k] + s[k..];
    }
    if rest != [] {
      assert s[|s| - 1] == rest[|rest| - 1];
    }
  }

  lemma JoinCons(line: string, lines: seq<string>)
    ensures JoinTerminated([line] + lines) == line + "\n" + JoinTerminated(lines)
  {
    assert ([line] + lines)[1..] == lines;
  }

  lemma NumberedCons(line: string, lines: seq<string>, n: nat)
    ensures Numbered([line] + lines, n) == NumberedLine(n, line) + Numbered(lines, n + 1)
  {
    assert ([line] + lines)[1..] == lines;
  }

  /**
   * One std::getline call on the text from `pos` on: the line up to the
   * next newline (or the end) and the position after that newline.
   */
  function Getline(str: string, pos: nat): (r: (string, nat))
    requires pos < |str|
    ensures pos < r.1 <= |str|
    ensures forall i :: 0 <= i < |r.0| ==> r.0[i] != '\n'
  {
    var k := NewlineAt(str[pos..]);
    if pos + k == |str| then (str[pos..], |str|) else (str[pos..pos + k], pos + k + 1)
  }

  /** The line getline extracts is the first of the remaining lines, and the others follow it. */
  lemma GetlineIsFirstLine(str: string, pos: nat)
    requires pos < |str|
    ensures Lines(str[pos..]) == [Getline(str, pos).0] + Lines(str[Getline(str, pos).1..])
  {
    var rest := str[pos..];
    var k := NewlineAt(rest);
    var r := Getline(str, pos);
    if pos + k == |str| {
      assert r == (rest, |str|);
      assert Lines(rest) == [rest];
      assert str[|str|..] == [];
      assert Lines(str[r.1..]) == [];
    } else {
      assert r == (str[pos..pos + k], pos + k + 1);
      assert Lines(rest) == [rest[..k]] + Lines(rest[k + 1..]);
      assert rest[..k] == r.0;
      assert rest[k + 1..] == str[r.1..];
    }
  }

  /**
   * fmt_lines: extracts the lines one getline call at a time and writes each
   * as "<number>: <line>\n", numbering from 1.
   */
  method FmtLines(str: string) returns (out: string)
    ensures out == Numbered(Lines(str), 1)
  {
    out := "";
    var pos := 0;
    var lineNum := 1;
    assert str[pos..] == str;
    while pos < |str|
      invariant pos <= |str|
      invariant Numbered(Lines(str), 1) == out + Numbered(Lines(str[pos..]), lineNum)
      decreases |str| - pos
    {
      var (line, next) := Getline(str, pos);
      GetlineIsFirstLine(str, pos);
      NumberedCons(line, Lines(str[next..]), lineNum);
      AppendAssoc(out, NumberedLine(lineNum, line), Numbered(Lines(str[next..]), lineNum + 1));
      out := out + NumberedLine(lineNum, line);
      lineNum := lineNum + 1;
      pos := next;
    }
    assert str[pos..] == [];
  }

  /**
   * What the compiler front end reports: its log, and the source text,
   * which it hands back only when parsing failed (a link failure leaves it
   * empty).
   */
  datatype CompileOut = CompileOut(log: string, source: string)

  /**
   * compile(): a non-empty compiler log fails the proxy, with a message that
   * shows the reported source with its lines numbered; otherwise a shader
   * module is created and the proxy succeeds.
   */
  method Compile(device: Device, out: CompileOut) returns (p: DeviceReturnProxy, message: string)
    requires device.Valid()
    modifies device
    ensures device.Valid() && device.destroyed == old(device.destroyed)
    ensures p.failed <==> out.log != ""
    ensures p.failed ==> p == Failed(ShaderModuleObject) && message == Numbered(Lines(out.source), 1) && device.created == old(device.created)
    ensures !p.failed ==> p.value == Object(ShaderModuleObject, |old(device.created)| + 1) && message == ""
    ensures !p.failed ==> device.created == old(device.created) + [Native(ShaderModuleObject, p.value.handle)]
  {
    if out.log != "" {
      message := FmtLines(out.source);
      p := Failed(ShaderModuleObject);
      return;
    }
    var h := device.Create(ShaderModuleObject);
    p := Succeeded(Object(ShaderModuleObject, h));
    message := "";
  }
}
