/** ahead/js/api.js: the browser client. It keeps the user id and the thread id in localStorage, and
    reads the streaming chat response as server-sent-event lines: text chunks are appended to a
    buffer, the buffer is split at '\n', every complete line is handled once, and the unfinished
    last piece stays in the buffer. */
module ApiClient {
  import opened Wrappers
  import opened Text

  const UserIdKey: string := "travelAgent_userId"
  const ThreadIdKey: string := "travelAgent_threadId"
  const DataPrefix: string := "data: "
  const DoneMarker: string := "[DONE]"

  /** A JavaScript number as parseInt returns it. */
  datatype JsNumber = Num(n: int) | NaN

  // ---------------------------------------------------------------------------------------------
  // parseInt

  /** The white space parseInt skips (WhiteSpace and LineTerminator of ECMAScript). */
  const JsSpaceChars: set<char> := {
    '\U{0009}', '\U{000A}', '\U{000B}', '\U{000C}', '\U{000D}', '\U{0020}', '\U{00A0}', '\U{1680}',
    '\U{2000}', '\U{2001}', '\U{2002}', '\U{2003}', '\U{2004}', '\U{2005}', '\U{2006}', '\U{2007}',
    '\U{2008}', '\U{2009}', '\U{200A}', '\U{2028}', '\U{2029}', '\U{202F}', '\U{205F}', '\U{3000}',
    '\U{FEFF}'}

  function SkipJsSpace(s: string): (r: string)
    ensures |r| <= |s| && r == s[|s| - |r|..]
    ensures r == [] || r[0] !in JsSpaceChars
  {
    if s != [] && s[0] in JsSpaceChars then SkipJsSpace(s[1..]) else s
  }

  /** The value of a digit in the given radix (10 or 16), or -1. */
  function DigitValue(c: char, radix: int): (d: int)
    requires radix == 10 || radix == 16
    ensures -1 <= d < radix
  {
    if '0' <= c <= '9' && (c as int) - ('0' as int) < radix then (c as int) - ('0' as int)
    else if radix == 16 && 'a' <= c <= 'f' then (c as int) - ('a' as int) + 10
    else if radix == 16 && 'A' <= c <= 'F' then (c as int) - ('A' as int) + 10
    else -1
  }

  /** The length of the longest prefix of digits. */
  function DigitRun(s: string, radix: int): (n: nat)
    requires radix == 10 || radix == 16
    ensures n <= |s|
    ensures forall i :: 0 <= i < n ==> DigitValue(s[i], radix) >= 0
    ensures n < |s| ==> DigitValue(s[n], radix) < 0
  {
    if s != [] && DigitValue(s[0], radix) >= 0 then 1 + DigitRun(s[1..], radix) else 0
  }

  /** The value of a string of digits, most significant first. */
  function DigitsValue(s: string, radix: int): int
    requires radix == 10 || radix == 16
    requires forall i :: 0 <= i < |s| ==> DigitValue(s[i], radix) >= 0
  {
    if s == [] then 0 else DigitsValue(s[..|s| - 1], radix) * radix + DigitValue(s[|s| - 1], radix)
  }

  /** parseInt(s) with no radix: leading white space, an optional sign, then a "0x"/"0X" prefix for
      hexadecimal or decimal digits; the longest run of digits is read and the rest ignored; no
      digit at all gives NaN. */
  function ParseInt(s: string): JsNumber {
    ParseSigned(SkipJsSpace(s))
  }

  function ParseSigned(t: string): JsNumber {
    if t != [] && t[0] == '-' then Negate(ParseMagnitude(t[1..]))
    else if t != [] && t[0] == '+' then ParseMagnitude(t[1..])
    else ParseMagnitude(t)
  }

  function Negate(x: JsNumber): JsNumber {
    if x.Num? then Num(-x.n) else NaN
  }

  function ParseMagnitude(u: string): JsNumber {
    if |u| >= 2 && u[0] == '0' && (u[1] == 'x' || u[1] == 'X') then ParseDigits(u[2..], 16)
    else ParseDigits(u, 10)
  }

  /** The longest run of digits, or NaN when there is none. */
  function ParseDigits(body: string, radix: int): JsNumber
    requires radix == 10 || radix == 16
  {
    var n := DigitRun(body, radix);
    if n == 0 then NaN else Num(DigitsValue(body[..n], radix))
  }

  /** String(n) for a non-negative integer. */
  function DecimalString(n: nat): (s: string)
    ensures |s| >= 1
    ensures forall i :: 0 <= i < |s| ==> '0' <= s[i] <= '9'
  {
    if n < 10 then [DecimalDigit(n)] else DecimalString(n / 10) + [DecimalDigit(n % 10)]
  }

  function DecimalDigit(d: nat): (c: char)
    requires d < 10
    ensures '0' <= c <= '9' && (c as int) - ('0' as int) == d
  {
    ('0' as int + d) as char
  }

  /** The value of a decimal string is the number it was written from. */
  lemma {:induction false} DecimalStringValue(n: nat)
    ensures var s := DecimalString(n);
            (forall i :: 0 <= i < |s| ==> DigitValue(s[i], 10) >= 0) && DigitsValue(s, 10) == n
  {
    var s := DecimalString(n);
    if n >= 10 {
      DecimalStringValue(n / 10);
      var p := DecimalString(n / 10);
      assert s == p + [DecimalDigit(n % 10)];
      assert s[..|s| - 1] == p;
    }
  }

  /** Storing a number and reading it back with parseInt yields the number: a generated user id
      survives the trip through localStorage. */
  lemma ParseDecimal(n: nat)
    ensures ParseInt(DecimalString(n)) == Num(n)
  {
    DecimalStringValue(n);
    ParsePlainDigits(DecimalString(n));
  }

  /** A string of decimal digits that does not start with "0x" parses to its value. */
  lemma ParsePlainDigits(s: string)
    requires |s| >= 1 && forall i :: 0 <= i < |s| ==> '0' <= s[i] <= '9'
    ensures ParseInt(s) == Num(DigitsValue(s, 10))
  {
    assert s[0] !in JsSpaceChars;
    assert SkipJsSpace(s) == s;
    assert ParseSigned(s) == ParseMagnitude(s);
    assert ParseMagnitude(s) == ParseDigits(s, 10) by {
      if |s| >= 2 { assert s[1] != 'x' && s[1] != 'X'; }
    }
    DigitRunAll(s, 10);
    assert s[..|s|] == s;
  }

  lemma {:induction false} DigitRunAll(s: string, radix: int)
    requires radix == 10 || radix == 16
    requires forall i :: 0 <= i < |s| ==> DigitValue(s[i], radix) >= 0
    ensures DigitRun(s, radix) == |s|
  {
    if s != [] {
      assert forall i :: 0 <= i < |s[1..]| ==> DigitValue(s[1..][i], radix) >= 0 by {
        forall i | 0 <= i < |s[1..]| ensures DigitValue(s[1..][i], radix) >= 0 {
          assert s[1..][i] == s[i + 1];
        }
      }
      DigitRunAll(s[1..], radix);
    }
  }

  // ---------------------------------------------------------------------------------------------
  // Line framing

  /** String.prototype.split('\n'): the pieces between newlines, at least one. */
  function Split(s: string): (pieces: seq<string>)
    ensures |pieces| >= 1
  {
    if s == [] then [""]
    else
      var rest := Split(s[1..]);
      if s[0] == '\n' then [""] + rest else [[s[0]] + rest[0]] + rest[1..]
  }

  /** No piece holds a newline. */
  lemma {:induction false} SplitPieces(s: string)
    ensures forall i :: 0 <= i < |Split(s)| ==> '\n' !in Split(s)[i]
  {
    if s != [] {
      SplitPieces(s[1..]);
    }
  }

  /** A text without a newline is one piece. */
  lemma {:induction false} SplitNoNewline(s: string)
    requires '\n' !in s
    ensures Split(s) == [s]
  {
    if s != [] {
      SplitNoNewline(s[1..]);
      assert [s[0]] + s[1..] == s;
    }
  }

  /** The pieces joined back with '\n'. */
  function Join(pieces: seq<string>): string
    requires |pieces| >= 1
  {
    if |pieces| == 1 then pieces[0] else pieces[0] + "\n" + Join(pieces[1..])
  }

  /** Splitting loses nothing: joining the pieces gives the text back. */
  lemma {:induction false} SplitJoin(s: string)
    ensures Join(Split(s)) == s
  {
    if s != [] {
      var rest := Split(s[1..]);
      SplitJoin(s[1..]);
      if s[0] == '\n' {
        assert ([""] + rest)[1..] == rest;
      } else if |rest| > 1 {
        var p := Split(s);
        assert p[1..] == rest[1..];
        ConcatAssoc([s[0]], rest[0], "\n" + Join(rest[1..]));
        ConcatAssoc([s[0]] + rest[0], "\n", Join(rest[1..]));
      }
    }
  }

  /** Splitting a concatenation: the complete pieces of the first part, then the split of its last
      piece continued by the second part. */
  lemma {:induction false} SplitAppend(a: string, b: string)
    ensures var p := Split(a);
            Split(a + b) == p[..|p| - 1] + Split(p[|p| - 1] + b)
  {
    var p := Split(a);
    if a == [] {
      assert a + b == p[0] + b;
    } else {
      var a' := a[1..];
      assert a + b == [a[0]] + (a' + b);
      SplitCons(a[0], a' + b);
      SplitAppend(a', b);
      var p' := Split(a');
      if a[0] == '\n' {
        SplitAppendNewline(p, p', Split(p'[|p'| - 1] + b));
      } else if |p'| > 1 {
        SplitAppendMiddle(a[0], p, p', Split(a' + b), Split(p'[|p'| - 1] + b));
      } else {
        var last := [a[0]] + p'[0];
        assert p == [last];
        ConcatAssoc([a[0]], p'[0], b);
        SplitCons(a[0], p'[0] + b);
      }
    }
  }

  lemma SplitCons(c: char, t: string)
    ensures Split([c] + t) == if c == '\n' then [""] + Split(t) else [[c] + Split(t)[0]] + Split(t)[1..]
  {
    assert ([c] + t)[0] == c && ([c] + t)[1..] == t;
  }

  lemma SplitAppendNewline(p: seq<string>, p': seq<string>, q: seq<string>)
    requires |p'| >= 1 && p == [""] + p'
    ensures p[..|p| - 1] + q == [""] + (p'[..|p'| - 1] + q) && p[|p| - 1] == p'[|p'| - 1]
  {
    assert p[..|p| - 1] == [""] + p'[..|p'| - 1];
    ConcatAssoc([""], p'[..|p'| - 1], q);
  }

  lemma SplitAppendMiddle(c: char, p: seq<string>, p': seq<string>, r: seq<string>, q: seq<string>)
    requires |p'| > 1 && p == [[c] + p'[0]] + p'[1..] && r == p'[..|p'| - 1] + q
    ensures [[c] + r[0]] + r[1..] == p[..|p| - 1] + q && p[|p| - 1] == p'[|p'| - 1]
  {
    assert r[0] == p'[0] && r[1..] == p'[1..|p'| - 1] + q;
    assert p[..|p| - 1] == [[c] + p'[0]] + p'[1..|p'| - 1];
    ConcatAssoc([[c] + p'[0]], p'[1..|p'| - 1], q);
  }

  /** The text left in the buffer after a chunk: the last piece, which holds no newline and is
      exactly what follows the last newline of the text (all of it when there is none). */
  lemma {:induction false} BufferIsTextAfterLastNewline(s: string)
    ensures var p := Split(s);
            && '\n' !in p[|p| - 1]
            && (|p| == 1 ==> p[0] == s && '\n' !in s)
            && (|p| > 1 ==> s == Join(p[..|p| - 1]) + "\n" + p[|p| - 1])
  {
    var p := Split(s);
    SplitJoin(s);
    SplitPieces(s);
    if |p| > 1 {
      JoinSnoc(p);
    }
  }

  lemma {:induction false} JoinSnoc(p: seq<string>)
    requires |p| > 1
    ensures Join(p) == Join(p[..|p| - 1]) + "\n" + p[|p| - 1]
    decreases |p|
  {
    if |p| > 2 {
      JoinSnoc(p[1..]);
      assert p[1..][..|p[1..]| - 1] == p[..|p| - 1][1..];
      assert Join(p[..|p| - 1]) == p[0] + "\n" + Join(p[..|p| - 1][1..]);
      ConcatAssoc(p[0] + "\n", Join(p[1..][..|p[1..]| - 1]) + "\n", p[|p| - 1]);
      assert Join(p) == p[0] + "\n" + Join(p[1..]);
    }
  }

  // ---------------------------------------------------------------------------------------------
  // Handling of one line

  /** JSON.parse of a payload, as far as the client looks at it: a failure (or a value whose fields
      cannot be read), or an object with the string fields thread_id, content and response, each
      absent or present. */
  datatype Payload = Invalid | Object(threadId: Option<string>, content: Option<string>, response: Option<string>)

  /** The calls the client makes while streaming, in order. */
  datatype Effect = Chunk(text: string) | SaveThread(threadId: string) | Complete | Failure

  /** The effects of some lines, and whether they ended the stream ("[DONE]"). */
  datatype Handled = Handled(effects: seq<Effect>, stop: bool)

  /** A present, non-empty string is truthy. */
  predicate Truthy(v: Option<string>) {
    v.Some? && v.value != ""
  }

  /** One complete line: a line without the "data: " prefix is ignored; the payload after the prefix
      is "[DONE]" (complete and stop), unparsable (skipped), or an object whose truthy thread_id is
      saved and whose content, or else response, goes to onChunk. */
  function LineEffects(line: string, parse: string -> Payload): (r: Handled)
    ensures !(DataPrefix <= line) ==> r == Handled([], false)
    ensures DataPrefix <= line && line[6..] == DoneMarker ==> r == Handled([Complete], true)
    ensures DataPrefix <= line && line[6..] != DoneMarker && parse(line[6..]).Invalid? ==> r == Handled([], false)
    ensures DataPrefix <= line && line[6..] != DoneMarker && parse(line[6..]).Object? ==>
              var p := parse(line[6..]);
              && !r.stop
              && r.effects == (if Truthy(p.threadId) then [SaveThread(p.threadId.value)] else [])
                              + (if Truthy(p.content) then [Chunk(p.content.value)]
                                 else if Truthy(p.response) then [Chunk(p.response.value)] else [])
    ensures Complete in r.effects <==> r.stop
    ensures r.stop ==> r.effects == [Complete]
    ensures Failure !in r.effects
  {
    if !(DataPrefix <= line) then Handled([], false)
    else
      var data := line[|DataPrefix|..];
      if data == DoneMarker then Handled([Complete], true)
      else match parse(data)
        case Invalid => Handled([], false)
        case Object(t, c, resp) =>
          Handled((if Truthy(t) then [SaveThread(t.value)] else [])
                  + (if Truthy(c) then [Chunk(c.value)] else if Truthy(resp) then [Chunk(resp.value)] else []),
                  false)
  }

  /** The effects of a list of complete lines handled in order, stopping after "[DONE]". */
  function LinesEffects(lines: seq<string>, parse: string -> Payload): Handled
  {
    if lines == [] then Handled([], false)
    else
      var h := LinesEffects(lines[..|lines| - 1], parse);
      if h.stop then h
      else
        var l := LineEffects(lines[|lines| - 1], parse);
        Handled(h.effects + l.effects, l.stop)
  }

  /** "[DONE]" completes exactly once, as the last effect; the lines before it complete nothing. */
  lemma {:induction false} LinesCompleteLast(lines: seq<string>, parse: string -> Payload)
    ensures var h := LinesEffects(lines, parse);
            && Failure !in h.effects
            && (h.stop ==> |h.effects| >= 1 && h.effects[|h.effects| - 1] == Complete
                           && Complete !in h.effects[..|h.effects| - 1])
            && (!h.stop ==> Complete !in h.effects)
  {
    if lines != [] {
      LinesCompleteLast(lines[..|lines| - 1], parse);
      var h := LinesEffects(lines[..|lines| - 1], parse);
      if !h.stop {
        var l := LineEffects(lines[|lines| - 1], parse);
        if l.stop {
          assert (h.effects + l.effects)[..|h.effects + l.effects| - 1] == h.effects;
        }
      }
    }
  }

  /** Handling two lists of lines one after the other is handling their concatenation. */
  lemma {:induction false} LinesEffectsAppend(a: seq<string>, b: seq<string>, parse: string -> Payload)
    ensures LinesEffects(a + b, parse)
         == if LinesEffects(a, parse).stop then LinesEffects(a, parse)
            else Handled(LinesEffects(a, parse).effects + LinesEffects(b, parse).effects, LinesEffects(b, parse).stop)
    decreases |b|
  {
    if b == [] {
      assert a + b == a;
    } else {
      var b' := b[..|b| - 1];
      assert (a + b)[..|a + b| - 1] == a + b';
      assert (a + b)[|a + b| - 1] == b[|b| - 1];
      LinesEffectsAppend(a, b', parse);
      var ha := LinesEffects(a, parse);
      var hb' := LinesEffects(b', parse);
      if !ha.stop && !hb'.stop {
        ConcatAssoc(ha.effects, hb'.effects, LineEffects(b[|b| - 1], parse).effects);
      }
    }
  }

  /** One more line of a list: the step of the `for` loop. */
  lemma LinesEffectsPrefix(lines: seq<string>, j: nat, parse: string -> Payload)
    requires j < |lines|
    ensures var h := LinesEffects(lines[..j], parse);
            LinesEffects(lines[..j + 1], parse)
              == if h.stop then h else Handled(h.effects + LineEffects(lines[j], parse).effects, LineEffects(lines[j], parse).stop)
  {
    assert lines[..j + 1][..j] == lines[..j];
  }

  /** Once "[DONE]" has been seen, the lines after it change nothing. */
  lemma LinesStopKeeps(lines: seq<string>, j: nat, parse: string -> Payload)
    requires j <= |lines| && LinesEffects(lines[..j], parse).stop
    ensures LinesEffects(lines, parse) == LinesEffects(lines[..j], parse)
  {
    LinesEffectsAppend(lines[..j], lines[j..], parse);
    assert lines[..j] + lines[j..] == lines;
  }

  // ---------------------------------------------------------------------------------------------
  // The stream

  /** How reading ends after the last chunk: `done`, or a read that throws. */
  datatype Ending = Done | ReadFails

  function EndEffect(ending: Ending): Effect {
    if ending == Done then Complete else Failure
  }

  /** What the stream does with a buffer and one further chunk: the complete lines of their
      concatenation, and the piece left in the buffer. */
  function CompleteLines(text: string): seq<string> {
    var p := Split(text);
    p[..|p| - 1]
  }

  function Leftover(text: string): string {
    var p := Split(text);
    p[|p| - 1]
  }

  /** The effects of the rest of the stream, from a buffer and the chunks still to come. */
  function StreamEffects(buffer: string, chunks: seq<string>, ending: Ending, parse: string -> Payload): seq<Effect>
    decreases |chunks|
  {
    if chunks == [] then [EndEffect(ending)]
    else
      var h := LinesEffects(CompleteLines(buffer + chunks[0]), parse);
      if h.stop then h.effects else h.effects + StreamEffects(Leftover(buffer + chunks[0]), chunks[1..], ending, parse)
  }

  function Concat(chunks: seq<string>): string {
    if chunks == [] then "" else chunks[0] + Concat(chunks[1..])
  }

  /** The effects of a whole text: its complete lines, then the end of the stream unless "[DONE]"
      came first. The piece after the last newline is never handled. */
  function Framed(text: string, ending: Ending, parse: string -> Payload): seq<Effect> {
    var h := LinesEffects(CompleteLines(text), parse);
    if h.stop then h.effects else h.effects + [EndEffect(ending)]
  }

  /** Framing a text that continues after a first part: the complete lines of the first part, then
      (unless they stopped the stream) the framing of its unfinished piece continued by the rest. */
  lemma FramedStep(first: string, rest: string, ending: Ending, parse: string -> Payload)
    ensures var h := LinesEffects(CompleteLines(first), parse);
            Framed(first + rest, ending, parse)
              == if h.stop then h.effects else h.effects + Framed(Leftover(first) + rest, ending, parse)
  {
    var init := CompleteLines(first);
    SplitAppend(first, rest);
    var q := Split(Leftover(first) + rest);
    assert Split(first + rest) == init + q;
    assert CompleteLines(first + rest) == init + q[..|q| - 1];
    LinesEffectsAppend(init, q[..|q| - 1], parse);
    var h := LinesEffects(init, parse);
    var hq := LinesEffects(q[..|q| - 1], parse);
    if !h.stop && !hq.stop {
      ConcatAssoc(h.effects, hq.effects, [EndEffect(ending)]);
    }
  }

  /** Chunk boundaries do not matter: the effects of a stream are those of the concatenated text. */
  lemma {:induction false} StreamIsFramed(buffer: string, chunks: seq<string>, ending: Ending, parse: string -> Payload)
    requires '\n' !in buffer
    ensures StreamEffects(buffer, chunks, ending, parse) == Framed(buffer + Concat(chunks), ending, parse)
    decreases |chunks|
  {
    if chunks == [] {
      assert buffer + Concat(chunks) == buffer;
      SplitNoNewline(buffer);
    } else {
      ConcatAssoc(buffer, chunks[0], Concat(chunks[1..]));
      FramedStep(buffer + chunks[0], Concat(chunks[1..]), ending, parse);
      SplitPieces(buffer + chunks[0]);
      StreamIsFramed(Leftover(buffer + chunks[0]), chunks[1..], ending, parse);
    }
  }

  /** onComplete is called at most once, and nothing follows it; a failed read calls onError instead
      and never onComplete. */
  lemma FramedCompletesOnce(text: string, ending: Ending, parse: string -> Payload)
    ensures var e := Framed(text, ending, parse);
            && |e| >= 1
            && (e[|e| - 1] == Complete || e[|e| - 1] == Failure)
            && Complete !in e[..|e| - 1] && Failure !in e[..|e| - 1]
  {
    LinesCompleteLast(CompleteLines(text), parse);
    var h := LinesEffects(CompleteLines(text), parse);
    if !h.stop {
      assert (h.effects + [EndEffect(ending)])[..|h.effects|] == h.effects;
    }
  }

  /** A partial line at the end of the stream is discarded: text after the last newline changes
      nothing. */
  lemma PartialTailIgnored(text: string, tail: string, ending: Ending, parse: string -> Payload)
    requires text == [] || text[|text| - 1] == '\n'
    requires '\n' !in tail
    ensures Framed(text + tail, ending, parse) == Framed(text, ending, parse)
  {
    SplitAppend(text, tail);
    var p := Split(text);
    assert p[|p| - 1] == [] by {
      BufferIsTextAfterLastNewline(text);
      if |p| == 1 {
        assert text == [];
      } else {
        var j := Join(p[..|p| - 1]) + "\n";
        assert text == j + p[|p| - 1];
      }
    }
    assert [] + tail == tail;
    SplitNoNewline(tail);
    assert CompleteLines(text + tail) == CompleteLines(text);
  }

  /** The effects of a whole call: onError alone when the request fails, the stream otherwise. */
  function ChatStreamEffects(ok: bool, chunks: seq<string>, ending: Ending, parse: string -> Payload): seq<Effect> {
    if !ok then [Failure] else StreamEffects("", chunks, ending, parse)
  }

  /** Everything the callbacks see over a whole call, stated on the concatenated stream text. */
  lemma ChatStreamShape(ok: bool, chunks: seq<string>, ending: Ending, parse: string -> Payload)
    ensures var e := ChatStreamEffects(ok, chunks, ending, parse);
            && (!ok ==> e == [Failure])
            && (ok ==> e == Framed(Concat(chunks), ending, parse))
            && |e| >= 1 && (e[|e| - 1] == Complete || e[|e| - 1] == Failure)
            && Complete !in e[..|e| - 1] && Failure !in e[..|e| - 1]
  {
    if ok {
      StreamIsFramed("", chunks, ending, parse);
      assert "" + Concat(chunks) == Concat(chunks);
      FramedCompletesOnce(Concat(chunks), ending, parse);
    }
  }

  // ---------------------------------------------------------------------------------------------
  // Thread id bookkeeping

  /** getThreadId: the stored thread id, or '' when none is stored. */
  function StoredThreadId(storage: map<string, string>): (t: string)
    ensures ThreadIdKey in storage ==> t == storage[ThreadIdKey]
    ensures ThreadIdKey !in storage ==> t == ""
  {
    if ThreadIdKey in storage then storage[ThreadIdKey] else ""
  }

  /** The client's thread id together with localStorage. */
  datatype Session = Session(threadId: string, storage: map<string, string>)

  /** The session after one effect: a non-empty SaveThread stores and adopts the id. */
  function ApplySave(s: Session, e: Effect): Session {
    if e.SaveThread? && e.threadId != "" then Session(e.threadId, s.storage[ThreadIdKey := e.threadId]) else s
  }

  /** The session after the SaveThread effects of a stream have been carried out, in order. */
  function ApplySaves(s: Session, effects: seq<Effect>): Session
  {
    if effects == [] then s else ApplySave(ApplySaves(s, effects[..|effects| - 1]), effects[|effects| - 1])
  }

  lemma ApplySavesOne(s: Session, e: Effect)
    ensures ApplySaves(s, [e]) == ApplySave(s, e)
  {
    assert [e][..0] == [];
  }

  lemma {:induction false} ApplySavesAppend(s: Session, a: seq<Effect>, b: seq<Effect>)
    ensures ApplySaves(s, a + b) == ApplySaves(ApplySaves(s, a), b)
    decreases |b|
  {
    if b == [] {
      assert a + b == a;
    } else {
      assert (a + b)[..|a + b| - 1] == a + b[..|b| - 1];
      assert (a + b)[|a + b| - 1] == b[|b| - 1];
      ApplySavesAppend(s, a, b[..|b| - 1]);
    }
  }

  /** After the saves the stored thread id and the field agree, the thread id is the last non-empty
      one saved (or the old one), and the user id entry is never touched. */
  lemma {:induction false} ApplySavesKeepsUser(s: Session, effects: seq<Effect>)
    requires StoredThreadId(s.storage) == s.threadId
    ensures var r := ApplySaves(s, effects);
            && StoredThreadId(r.storage) == r.threadId
            && (UserIdKey in r.storage <==> UserIdKey in s.storage)
            && (UserIdKey in s.storage ==> r.storage[UserIdKey] == s.storage[UserIdKey])
            && (r.threadId == s.threadId || SaveThread(r.threadId) in effects)
  {
    if effects != [] {
      ApplySavesKeepsUser(s, effects[..|effects| - 1]);
    }
  }

  class TravelAgentApi {
    var baseUrl: string
    var userId: JsNumber
    var threadId: string
    /** localStorage. */
    var storage: map<string, string>

    /** The constructor reads (or creates) the user id and reads the thread id. `draw` stands for
        the value Math.random() returns. */
    constructor(baseUrl: string, initialStorage: map<string, string>, draw: real)
      requires 0.0 <= draw < 1.0
      ensures this.baseUrl == baseUrl
      ensures threadId == StoredThreadId(initialStorage)
      ensures storage == UserIdStorage(initialStorage, draw)
      ensures userId == UserIdValue(initialStorage, draw)
    {
      UserIdKeepsThread(initialStorage, draw);
      this.baseUrl := baseUrl;
      storage := initialStorage;
      threadId := "";
      userId := NaN;
      new;
      var id := GetUserId(draw);
      userId := id;
      var t := GetThreadId();
      threadId := t;
    }

    /** getUserId: a stored, non-empty id is kept and parsed; otherwise a fresh one,
        floor(draw * 1000000), is stored as its decimal string and returned. */
    method GetUserId(draw: real) returns (id: JsNumber)
      requires 0.0 <= draw < 1.0
      modifies this
      ensures storage == UserIdStorage(old(storage), draw)
      ensures id == UserIdValue(old(storage), draw)
      ensures baseUrl == old(baseUrl) && userId == old(userId) && threadId == old(threadId)
    {
      ghost var st := UserIdStorage(storage, draw);
      var stored := if UserIdKey in storage then Some(storage[UserIdKey]) else None;
      var value: string;
      if !Truthy(stored) {
        var generated := Generated(draw);
        value := DecimalString(generated);
        storage := storage[UserIdKey := value];
      } else {
        value := stored.value;
      }
      assert storage == st && value == st[UserIdKey];
      id := ParseInt(value);
    }

    /** getThreadId. */
    method GetThreadId() returns (t: string)
      ensures t == StoredThreadId(storage)
    {
      t := if ThreadIdKey in storage then storage[ThreadIdKey] else "";
    }

    /** saveThreadId: only a truthy id is stored and adopted. */
    method SaveThreadId(t: Option<string>)
      modifies this
      ensures Truthy(t) ==> threadId == t.value && storage == old(storage)[ThreadIdKey := t.value]
      ensures !Truthy(t) ==> threadId == old(threadId) && storage == old(storage)
      ensures baseUrl == old(baseUrl) && userId == old(userId)
    {
      if Truthy(t) {
        storage := storage[ThreadIdKey := t.value];
        threadId := t.value;
      }
    }

    /** clearThreadId: starts a new conversation. */
    method ClearThreadId()
      modifies this
      ensures threadId == "" && storage == old(storage) - {ThreadIdKey}
      ensures baseUrl == old(baseUrl) && userId == old(userId)
    {
      storage := storage - {ThreadIdKey};
      threadId := "";
    }

    /** chatStream: `ok` says whether fetch returned a successful response, `chunks` are the decoded
        chunks the reader delivers and `ending` how reading ends; `parse` stands for JSON.parse. The
        effects are the callback invocations, in order. */
    method ChatStream(ok: bool, chunks: seq<string>, ending: Ending, parse: string -> Payload)
      returns (effects: seq<Effect>)
      modifies this
      ensures effects == ChatStreamEffects(ok, chunks, ending, parse)
      ensures Session(threadId, storage) == ApplySaves(old(Session(threadId, storage)), effects)
      ensures baseUrl == old(baseUrl) && userId == old(userId)
    {
      effects := [];
      if !ok {
        effects := [Failure];
        return;
      }
      var buffer := "";
      var i := 0;
      while i < |chunks|
        invariant 0 <= i <= |chunks|
        invariant effects + StreamEffects(buffer, chunks[i..], ending, parse) == StreamEffects("", chunks, ending, parse)
        invariant Session(threadId, storage) == ApplySaves(old(Session(threadId, storage)), effects)
        invariant baseUrl == old(baseUrl) && userId == old(userId)
      {
        var text := buffer + chunks[i];
        assert chunks[i..][0] == chunks[i] && chunks[i..][1..] == chunks[i + 1..];
        var h := HandleLines(CompleteLines(text), parse);
        ApplySavesAppend(old(Session(threadId, storage)), effects, h.effects);
        if h.stop {
          effects := effects + h.effects;
          return;
        }
        ConcatAssoc(effects, h.effects, StreamEffects(Leftover(text), chunks[i + 1..], ending, parse));
        effects := effects + h.effects;
        buffer := Leftover(text);
        i := i + 1;
      }
      ApplySavesAppend(old(Session(threadId, storage)), effects, [EndEffect(ending)]);
      effects := effects + [EndEffect(ending)];
    }

    /** The `for` loop over the complete lines of one chunk. */
    method HandleLines(lines: seq<string>, parse: string -> Payload) returns (h: Handled)
      modifies this
      ensures h == LinesEffects(lines, parse)
      ensures Session(threadId, storage) == ApplySaves(old(Session(threadId, storage)), h.effects)
      ensures baseUrl == old(baseUrl) && userId == old(userId)
    {
      var effects := [];
      var j := 0;
      while j < |lines|
        invariant 0 <= j <= |lines|
        invariant LinesEffects(lines[..j], parse) == Handled(effects, false)
        invariant Session(threadId, storage) == ApplySaves(old(Session(threadId, storage)), effects)
        invariant baseUrl == old(baseUrl) && userId == old(userId)
      {
        LinesEffectsPrefix(lines, j, parse);
        var l := HandleLine(lines[j], parse);
        ApplySavesAppend(old(Session(threadId, storage)), effects, l.effects);
        effects := effects + l.effects;
        if l.stop {
          LinesStopKeeps(lines, j + 1, parse);
          return Handled(effects, true);
        }
        j := j + 1;
      }
      assert lines[..j] == lines;
      h := Handled(effects, false);
    }

    /** The body of the `for` loop for one line: carries out the line's saveThreadId call and
        returns its effects. */
    method HandleLine(line: string, parse: string -> Payload) returns (l: Handled)
      modifies this
      ensures l == LineEffects(line, parse)
      ensures Session(threadId, storage) == ApplySaves(old(Session(threadId, storage)), l.effects)
      ensures baseUrl == old(baseUrl) && userId == old(userId)
    {
      if !(DataPrefix <= line) {
        return Handled([], false);
      }
      var data := line[|DataPrefix|..];
      if data == DoneMarker {
        return Handled([Complete], true);
      }
      var parsed := parse(data);
      if parsed.Invalid? {
        return Handled([], false);
      }
      var saves: seq<Effect> := [];
      if Truthy(parsed.threadId) {
        SaveThreadId(parsed.threadId);
        saves := [SaveThread(parsed.threadId.value)];
        ApplySavesOne(old(Session(threadId, storage)), saves[0]);
      }
      var shown: seq<Effect> := [];
      if Truthy(parsed.content) {
        shown := [Chunk(parsed.content.value)];
        ApplySavesOne(Session(threadId, storage), shown[0]);
      } else if Truthy(parsed.response) {
        shown := [Chunk(parsed.response.value)];
        ApplySavesOne(Session(threadId, storage), shown[0]);
      }
      ApplySavesAppend(old(Session(threadId, storage)), saves, shown);
      l := Handled(saves + shown, false);
    }
  }

  /** floor(draw * 1000000). */
  function Generated(draw: real): (n: nat)
    requires 0.0 <= draw < 1.0
    ensures n <= 999999
  {
    var x := (draw * 1000000.0).Floor;
    assert 0 <= x < 1000000 by {
      assert draw * 1000000.0 < 1000000.0;
    }
    x
  }

  /** localStorage after getUserId. */
  function UserIdStorage(storage: map<string, string>, draw: real): (st: map<string, string>)
    requires 0.0 <= draw < 1.0
    ensures UserIdKey in storage && storage[UserIdKey] != "" ==> st == storage
  {
    if UserIdKey in storage && storage[UserIdKey] != "" then storage
    else storage[UserIdKey := DecimalString(Generated(draw))]
  }

  /** The id getUserId returns. */
  function UserIdValue(storage: map<string, string>, draw: real): JsNumber
    requires 0.0 <= draw < 1.0
  {
    ParseInt(UserIdStorage(storage, draw)[UserIdKey])
  }

  /** getUserId leaves the stored thread id alone. */
  lemma UserIdKeepsThread(storage: map<string, string>, draw: real)
    requires 0.0 <= draw < 1.0
    ensures StoredThreadId(UserIdStorage(storage, draw)) == StoredThreadId(storage)
  {
    assert ThreadIdKey[12] != UserIdKey[12];
  }

  /** A stored id is kept and parsed; with none stored the generated one is stored and returned, and
      it lies in [0, 999999]. */
  lemma UserIdKeptOrGenerated(storage: map<string, string>, draw: real)
    requires 0.0 <= draw < 1.0
    ensures UserIdKey in storage && storage[UserIdKey] != "" ==>
              UserIdStorage(storage, draw) == storage && UserIdValue(storage, draw) == ParseInt(storage[UserIdKey])
    ensures !(UserIdKey in storage && storage[UserIdKey] != "") ==>
              && UserIdValue(storage, draw) == Num(Generated(draw))
              && 0 <= Generated(draw) <= 999999
              && UserIdStorage(storage, draw) == storage[UserIdKey := DecimalString(Generated(draw))]
  {
    ParseDecimal(Generated(draw));
  }
}
