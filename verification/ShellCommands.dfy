/**
 * The JSON that the shell commands of a tool call are put together to: a reader of such texts,
 * which knows nothing of how they are written, gets the commands back.
 */
module ShellCommands {
  import opened Bytes
  import opened LimitedText
  import opened Ordering
  import opened StreamParts

  /** The value of a hexadecimal digit. */
  function HexValue(c: char): Option<nat> {
    if '0' <= c <= '9' then Some(c as int - 48)
    else if 'a' <= c <= 'f' then Some(c as int - 87)
    else if 'A' <= c <= 'F' then Some(c as int - 55)
    else None
  }

  /** The bytes of a code point of the basic plane. */
  function RuneBytes(n: nat): Bytes
    requires n < 0x1_0000
  {
    if n < 0x80 then [n as char]
    else if n < 0x800 then [(0xC0 + n / 64) as char, (0x80 + n % 64) as char]
    else [(0xE0 + n / 4096) as char, (0x80 + n / 64 % 64) as char, (0x80 + n % 64) as char]
  }

  /** Four hexadecimal digits. */
  function CodePoint(s: Bytes): Option<nat>
    requires |s| == 4
    ensures CodePoint(s).Some? ==> CodePoint(s).value < 0x1_0000
  {
    var a, b, c, d := HexValue(s[0]), HexValue(s[1]), HexValue(s[2]), HexValue(s[3]);
    if a.None? || b.None? || c.None? || d.None? then None
    else Some(a.value * 4096 + b.value * 256 + c.value * 16 + d.value)
  }

  function ShortEscape(c: char): Option<char> {
    if c == '\"' || c == '\\' || c == '/' then Some(c)
    else if c == 'b' then Some(8 as char)
    else if c == 'f' then Some(12 as char)
    else if c == 'n' then Some(10 as char)
    else if c == 'r' then Some(13 as char)
    else if c == 't' then Some(9 as char)
    else None
  }

  /** One character of a JSON string, and what follows it. */
  function ReadChar(s: Bytes): Option<(Bytes, Bytes)>
    ensures ReadChar(s).Some? ==> |ReadChar(s).value.1| < |s|
  {
    if s == "" || s[0] == '\"' || s[0] < ' ' then None
    else if s[0] != '\\' then Some(([s[0]], s[1..]))
    else if |s| > 1 && ShortEscape(s[1]).Some? then Some(([ShortEscape(s[1]).value], s[2..]))
    else if |s| > 5 && s[1] == 'u' && CodePoint(s[2..6]).Some? then Some((RuneBytes(CodePoint(s[2..6]).value), s[6..]))
    else None
  }

  /** A JSON string whose opening quote has been read: its value and what follows its closing quote. */
  function ReadString(s: Bytes): Option<(Bytes, Bytes)>
    decreases |s|
  {
    if s != "" && s[0] == '\"' then Some(("", s[1..]))
    else
      var first := ReadChar(s);
      if first.None? then None
      else
        var rest := ReadString(first.value.1);
        if rest.None? then None else Some((first.value.0 + rest.value.0, rest.value.1))
  }

  lemma ReadStringStep(first: Bytes, value: Bytes, s: Bytes)
    requires ReadChar(first + s) == Some((value, s)) && ReadString(s).Some?
    requires |first| > 0 && first[0] != '\"'
    ensures ReadString(first + s) == Some((value + ReadString(s).value.0, ReadString(s).value.1))
  {
  }

  lemma HexRead(n: nat)
    requires n < 16
    ensures HexValue(HexDigit(n)) == Some(n)
  {
    if n < 10 {
      assert HexDigit(n) == ('0' as int + n) as char;
    }
  }

  lemma ShortRead(c: char, s: Bytes)
    requires ShortEscape(c).Some?
    ensures ReadChar(['\\', c] + s) == Some(([ShortEscape(c).value], s))
  {
    var t := ['\\', c] + s;
    assert t[0] == '\\' && t[1] == c && t[2..] == s;
  }

  lemma HexEscapeRead(n: nat, s: Bytes)
    requires n < 0x80
    ensures ReadChar(['\\', 'u', '0', '0', HexDigit(n / 16), HexDigit(n % 16)] + s) == Some(([n as char], s))
  {
    var t := ['\\', 'u', '0', '0', HexDigit(n / 16), HexDigit(n % 16)] + s;
    assert t[0] == '\\' && t[1] == 'u' && t[6..] == s;
    assert t[2..6] == ['0', '0', HexDigit(n / 16), HexDigit(n % 16)];
    HexRead(n / 16);
    HexRead(n % 16);
    DigitsRead(t[2..6], n);
  }

  lemma DigitsRead(digits: Bytes, n: nat)
    requires |digits| == 4 && n < 0x80 && digits[0] == '0' && digits[1] == '0'
    requires HexValue(digits[2]) == Some(n / 16) && HexValue(digits[3]) == Some(n % 16)
    ensures CodePoint(digits) == Some(n) && RuneBytes(n) == [n as char]
  {
  }

  lemma PlainRead(c: char, s: Bytes)
    requires c != '\"' && c != '\\' && c >= ' '
    ensures ReadChar([c] + s) == Some(([c], s))
  {
    assert ([c] + s)[1..] == s;
  }

  /** The characters that are escaped by one letter. */
  function LetterOf(c: char): char {
    if c == '\n' then 'n' else if c == '\r' then 'r' else if c == '\t' then 't'
    else if c == 8 as char then 'b' else if c == 12 as char then 'f' else c
  }

  predicate IsShort(c: char) {
    c == '\"' || c == '\\' || c == '\n' || c == '\r' || c == '\t' || c == 8 as char || c == 12 as char
  }

  predicate IsHex(c: char) {
    !IsShort(c) && (c < ' ' || c == '<' || c == '>' || c == '&')
  }

  lemma ShortEscaped(c: char)
    requires IsShort(c)
    ensures EscapeChar(c) == ['\\', LetterOf(c)] && ShortEscape(LetterOf(c)) == Some(c)
  {
  }

  lemma HexEscaped(c: char)
    requires IsHex(c)
    ensures c as int < 0x80
    ensures EscapeChar(c) == ['\\', 'u', '0', '0', HexDigit(c as int / 16), HexDigit(c as int % 16)]
  {
    var n := c as int;
    assert n / 16 % 16 == n / 16;
  }

  lemma NotEscaped(c: char)
    requires !IsShort(c) && !IsHex(c)
    ensures EscapeChar(c) == [c] && c != '\"' && c != '\\' && c >= ' '
  {
  }

  lemma EscapedRead(c: char, s: Bytes)
    ensures ReadChar(EscapeChar(c) + s) == Some(([c], s))
    ensures |EscapeChar(c)| > 0 && EscapeChar(c)[0] != '\"'
  {
    if IsShort(c) {
      ShortEscaped(c);
      ShortRead(LetterOf(c), s);
    } else if IsHex(c) {
      HexEscaped(c);
      HexEscapeRead(c as int, s);
    } else {
      NotEscaped(c);
      PlainRead(c, s);
    }
  }

  /** The two separators that are escaped by their code points. */
  lemma SeparatorRead(last: char, s: Bytes)
    requires last == '8' || last == '9'
    ensures ReadChar(['\\', 'u', '2', '0', '2', last] + s)
         == Some(([0xE2 as char, 0x80 as char, (if last == '8' then 0xA8 else 0xA9) as char], s))
  {
    var t := ['\\', 'u', '2', '0', '2', last] + s;
    assert t[0] == '\\' && t[1] == 'u' && t[6..] == s;
    assert t[2..6] == ['2', '0', '2', last];
    assert CodePoint(t[2..6]) == Some(if last == '8' then 0x2028 else 0x2029);
  }

  /** What is written of a string is read as that string, whatever follows its closing quote. */
  lemma {:induction false} EscapeRead(s: Bytes, rest: Bytes)
    ensures ReadString(Escape(s) + ("\"" + rest)) == Some((s, rest))
    decreases |s|
  {
    var tail := "\"" + rest;
    if s == "" {
      assert "" + tail == tail && tail[1..] == rest;
    } else if "\U{E2}\U{80}\U{A8}" <= s {
      SeparatorStep(s, '8', tail);
      EscapeRead(s[3..], rest);
      Rejoined(s, s[..3], 3);
    } else if "\U{E2}\U{80}\U{A9}" <= s {
      SeparatorStep(s, '9', tail);
      EscapeRead(s[3..], rest);
      Rejoined(s, s[..3], 3);
    } else {
      var first, later := EscapeChar(s[0]), Escape(s[1..]) + tail;
      EscapedRead(s[0], later);
      assert (first + Escape(s[1..])) + tail == first + later;
      EscapeRead(s[1..], rest);
      ReadStringStep(first, [s[0]], later);
      Rejoined(s, [s[0]], 1);
    }
  }

  lemma Rejoined(s: Bytes, first: Bytes, n: nat)
    requires n <= |s| && first == s[..n]
    ensures first + s[n..] == s
  {
  }

  lemma SeparatorWritten(s: Bytes, last: char)
    requires last == '8' || last == '9'
    requires ["\U{E2}\U{80}\U{A8}", "\U{E2}\U{80}\U{A9}"][if last == '8' then 0 else 1] <= s
    ensures Escape(s) == ['\\', 'u', '2', '0', '2', last] + Escape(s[3..])
  {
    if last == '8' {
      assert "\\u2028" == ['\\', 'u', '2', '0', '2', last];
    } else {
      assert s[2] == '\U{A9}' && !("\U{E2}\U{80}\U{A8}" <= s);
      assert "\\u2029" == ['\\', 'u', '2', '0', '2', last];
    }
  }

  lemma SeparatorStep(s: Bytes, last: char, tail: Bytes)
    requires last == '8' || last == '9'
    requires ["\U{E2}\U{80}\U{A8}", "\U{E2}\U{80}\U{A9}"][if last == '8' then 0 else 1] <= s
    ensures var later := Escape(s[3..]) + tail;
            ReadString(later).Some? ==>
              ReadString(Escape(s) + tail) == Some((s[..3] + ReadString(later).value.0, ReadString(later).value.1))
  {
    var later, first := Escape(s[3..]) + tail, ['\\', 'u', '2', '0', '2', last];
    SeparatorWritten(s, last);
    assert (first + Escape(s[3..])) + tail == first + later;
    SeparatorRead(last, later);
    assert s[..3] == [0xE2 as char, 0x80 as char, (if last == '8' then 0xA8 else 0xA9) as char];
    if ReadString(later).Some? {
      ReadStringStep(first, s[..3], later);
    }
  }

  // ---------- The list ----------

  /** The strings of a JSON list whose opening bracket has been read, and what follows the list. */
  function ReadList(s: Bytes): Option<(seq<Bytes>, Bytes)>
    decreases |s|
  {
    if s == "" then None
    else if s[0] == ']' then Some(([], s[1..]))
    else if s[0] != '\"' then None
    else
      var first := ReadString(s[1..]);
      if first.None? || |first.value.1| >= |s| || first.value.1 == "" then None
      else if first.value.1[0] == ']' then Some(([first.value.0], first.value.1[1..]))
      else if first.value.1[0] != ',' || |first.value.1| < 2 || first.value.1[1] == ']' then None
      else
        var rest := ReadList(first.value.1[1..]);
        if rest.None? then None else Some(([first.value.0] + rest.value.0, rest.value.1))
  }

  lemma QuotedFirst(command: Bytes, rest: Bytes)
    ensures var s := Quote(command) + rest; s != "" && s[0] == '\"' && ReadString(s[1..]) == Some((command, rest))
  {
    var s := Quote(command) + rest;
    assert s == "\"" + (Escape(command) + ("\"" + rest));
    assert s[1..] == Escape(command) + ("\"" + rest);
    EscapeRead(command, rest);
  }

  lemma LastRead(command: Bytes, rest: Bytes)
    ensures ReadList(Quote(command) + ("]" + rest)) == Some(([command], rest))
  {
    QuotedFirst(command, "]" + rest);
    assert ("]" + rest)[1..] == rest;
  }

  lemma FirstRead(command: Bytes, more: Bytes)
    requires more != "" && more[0] != ']' && ReadList(more).Some?
    ensures ReadList(Quote(command) + ("," + more))
         == Some(([command] + ReadList(more).value.0, ReadList(more).value.1))
  {
    QuotedFirst(command, "," + more);
    assert ("," + more)[1..] == more && ("," + more)[1] == more[0];
  }

  lemma Regrouped(first: Bytes, rest: Bytes, tail: Bytes)
    ensures (first + "," + rest) + tail == first + ("," + (rest + tail))
  {
  }

  lemma ReadBefore(commands: seq<Bytes>, tail: Bytes, rest: Bytes)
    requires |commands| > 1 && ReadList(JoinQuoted(commands[1..]) + tail) == Some((commands[1..], rest))
    ensures ReadList(JoinQuoted(commands) + tail) == Some((commands, rest))
  {
    var first, more := Quote(commands[0]), JoinQuoted(commands[1..]);
    QuoteFirst(commands[1..], tail);
    FirstRead(commands[0], more + tail);
    Regrouped(first, more, tail);
    assert JoinQuoted(commands) == first + "," + more;
    assert [commands[0]] + commands[1..] == commands;
  }

  lemma {:induction false} ListRead(commands: seq<Bytes>, rest: Bytes)
    ensures ReadList(JoinQuoted(commands) + ("]" + rest)) == Some((commands, rest))
    decreases |commands|
  {
    if commands == [] {
      NoneRead(rest);
    } else if |commands| == 1 {
      LastRead(commands[0], rest);
      assert commands == [commands[0]];
    } else {
      ListRead(commands[1..], rest);
      ReadBefore(commands, "]" + rest, rest);
    }
  }

  lemma NoneRead(rest: Bytes)
    ensures ReadList(JoinQuoted([]) + ("]" + rest)) == Some(([], rest))
  {
    var tail := "]" + rest;
    assert "" + tail == tail && tail[1..] == rest;
  }

  lemma QuoteFirst(commands: seq<Bytes>, tail: Bytes)
    requires commands != []
    ensures (JoinQuoted(commands) + tail) != "" && (JoinQuoted(commands) + tail)[0] == '\"'
  {
  }

  /** The JSON that the commands are written as is read as those commands, in their order. */
  lemma CommandsRoundTrip(commands: seq<Bytes>)
    ensures var text := MarshalCommands(commands);
            && "{\"commands\":[" <= text
            && ReadList(text[|"{\"commands\":["|..]) == Some((commands, "}"))
  {
    var text, start := MarshalCommands(commands), "{\"commands\":[";
    assert text == start + (JoinQuoted(commands) + ("]" + "}")) by { assert "]" + "}" == "]}"; }
    assert text[|start|..] == JoinQuoted(commands) + ("]" + "}");
    ListRead(commands, "}");
  }

  // ---------- The order of the commands ----------

  predicate Increasing(indexes: seq<int>) {
    forall i, j :: 0 <= i < j < |indexes| ==> indexes[i] < indexes[j]
  }

  lemma {:induction false} IncreasingUnique(a: seq<int>, b: seq<int>)
    requires Increasing(a) && Increasing(b) && forall x :: x in a <==> x in b
    ensures a == b
    decreases |a|
  {
    assert a != [] ==> a[0] in a;
    assert b != [] ==> b[0] in b;
    if a != [] && b != [] {
      SameTails(a, b);
      IncreasingUnique(a[1..], b[1..]);
      assert a == [a[0]] + a[1..] && b == [b[0]] + b[1..];
    }
  }

  lemma SameTails(a: seq<int>, b: seq<int>)
    requires Increasing(a) && Increasing(b) && a != [] && b != [] && forall x :: x in a <==> x in b
    ensures a[0] == b[0] && forall x :: x in a[1..] <==> x in b[1..]
  {
    assert a[0] in a && b[0] in b;
    TailAbove(a);
    TailAbove(b);
  }

  lemma TailAbove(a: seq<int>)
    requires Increasing(a) && a != []
    ensures forall x :: x in a[1..] <==> x in a && x != a[0]
    ensures forall x :: x in a ==> a[0] <= x
  {
    assert a == [a[0]] + a[1..];
    forall x | x in a[1..] ensures x > a[0] {
      var i :| 0 <= i < |a[1..]| && a[1..][i] == x;
      assert a[i + 1] == x;
    }
  }

  function Commands(shell: map<int, Text>, indexes: seq<int>): seq<Bytes>
    requires forall i :: 0 <= i < |indexes| ==> indexes[i] in shell
  {
    if indexes == [] then [] else [shell[indexes[0]].value] + Commands(shell, indexes[1..])
  }

  lemma {:induction false} CommandsListed(shell: map<int, Text>, indexes: seq<int>)
    requires forall i :: 0 <= i < |indexes| ==> indexes[i] in shell
    ensures Commands(shell, indexes) == seq(|indexes|, i requires 0 <= i < |indexes| => shell[indexes[i]].value)
  {
    if indexes != [] {
      CommandsListed(shell, indexes[1..]);
    }
  }

  /** The arguments of a tool call are its commands by their indexes, within the limit, and say what was cut. */
  lemma AssembledByIndex(shell: map<int, Text>, indexes: seq<int>, limit: nat)
    requires Increasing(indexes) && (forall i :: i in shell ==> i in indexes)
    requires forall i :: 0 <= i < |indexes| ==> indexes[i] in shell
    ensures var text := SetTo(MarshalCommands(Commands(shell, indexes)), limit);
            && AssembledShellCommands(shell, limit).0 == text.value
            && (AssembledShellCommands(shell, limit).1
                <==> text.truncated || exists i :: i in shell && shell[i].truncated)
  {
    IncreasingUnique(indexes, SortedIndexes(shell.Keys));
    CommandsListed(shell, indexes);
  }
}
