/** How free text becomes one safe, bounded line of the terminal timeline. */
module TimelineText {
  import opened Wrappers
  import opened PythonText
  import opened EventFilter

  const MAX_VALUE_CHARS := 160
  const ELLIPSIS: char := '\U{2026}'

  /** What is assumed of `str.isprintable`: printable ASCII and the ellipsis are printable, and the only
      printable white space is the blank. */
  ghost predicate PrintableTable(printable: char -> bool) {
    && (forall c: char :: 32 <= c as int <= 126 ==> printable(c))
    && printable(ELLIPSIS)
    && (forall c: char :: printable(c) && IsSpace(c) ==> c == ' ')
  }

  ghost predicate AllPrintable(printable: char -> bool, s: string) {
    forall i :: 0 <= i < |s| ==> printable(s[i])
  }

  // ---------------------------------------------------------------------------
  // Escaping
  // ---------------------------------------------------------------------------

  function HexDigit(n: nat): char
    requires n < 16
  {
    if n < 10 then ('0' as int + n) as char else ('a' as int + n - 10) as char
  }

  /** `format(n, "x")`. */
  function Hex(n: nat): (s: string)
    ensures s != "" && forall i :: 0 <= i < |s| ==> '0' <= s[i] <= 'f'
  {
    if n < 16 then [HexDigit(n)] else Hex(n / 16) + [HexDigit(n % 16)]
  }

  function EscapeChar(printable: char -> bool, c: char): string {
    if printable(c) then [c]
    else if c == '\n' then "\\n"
    else if c == '\t' then "\\t"
    else if c == '\r' then "\\r"
    else "\\x" + (if c as int < 16 then "0" else "") + Hex(c as int)
  }

  function DigitValue(c: char): int {
    if '0' <= c <= '9' then c as int - '0' as int else c as int - 'a' as int + 10
  }

  /** A hexadecimal number read back. */
  function Unhex(s: string): int {
    if s == "" then 0 else 16 * Unhex(s[..|s| - 1]) + DigitValue(s[|s| - 1])
  }

  lemma UnhexSnoc(s: string, n: nat)
    requires n < 16
    ensures Unhex(s + [HexDigit(n)]) == 16 * Unhex(s) + n
  {
    var d := HexDigit(n);
    assert (s + [d])[..|s|] == s;
  }

  /** Leading zeros do not matter. */
  lemma {:induction false} HexReads(zeros: string, n: nat)
    requires Unhex(zeros) == 0
    ensures Unhex(zeros + Hex(n)) == n
  {
    if n < 16 {
      UnhexSnoc(zeros, n);
    } else {
      HexReads(zeros, n / 16);
      UnhexSnoc(zeros + Hex(n / 16), n % 16);
      assert zeros + Hex(n) == zeros + Hex(n / 16) + [HexDigit(n % 16)];
    }
  }

  /** The code of the character behind an escape. */
  function CodeOf(e: string): int {
    if |e| == 1 then e[0] as int
    else if e == "\\n" then 10
    else if e == "\\t" then 9
    else if e == "\\r" then 13
    else if |e| >= 2 then Unhex(e[2..])
    else 0
  }

  lemma CodeOfHex(digits: string)
    requires digits != ""
    ensures CodeOf("\\x" + digits) == Unhex(digits)
  {
    assert ("\\x" + digits)[2..] == digits;
  }

  lemma NamedEscapes()
    ensures CodeOf("\\n") == 10 && CodeOf("\\t") == 9 && CodeOf("\\r") == 13
  {
  }

  lemma HexEscape(zeros: string, n: nat)
    requires zeros == "" || zeros == "0"
    ensures CodeOf("\\x" + (zeros + Hex(n))) == n
  {
    UnhexSnoc("", 0);
    assert "" + [HexDigit(0)] == "0";
    HexReads(zeros, n);
    CodeOfHex(zeros + Hex(n));
  }

  /** Every character can be read off its escape, and a printable one stands for itself. */
  lemma EscapeReads(printable: char -> bool, c: char)
    ensures CodeOf(EscapeChar(printable, c)) == c as int
    ensures printable(c) ==> EscapeChar(printable, c) == [c]
  {
    if !printable(c) {
      if c == '\n' || c == '\t' || c == '\r' {
        NamedEscapes();
      } else {
        var zeros: string := if c as int < 16 then "0" else "";
        HexEscape(zeros, c as int);
        assert "\\x" + zeros + Hex(c as int) == "\\x" + (zeros + Hex(c as int));
      }
    }
  }

  function Escape(printable: char -> bool, s: string): string {
    if s == "" then "" else EscapeChar(printable, s[0]) + Escape(printable, s[1..])
  }

  lemma {:induction false} EscapeSnoc(printable: char -> bool, s: string, c: char)
    ensures Escape(printable, s + [c]) == Escape(printable, s) + EscapeChar(printable, c)
  {
    if s == "" {
      assert [c][1..] == "";
      assert Escape(printable, [c]) == EscapeChar(printable, c) + Escape(printable, "");
      assert s + [c] == [c];
    } else {
      assert (s + [c])[0] == s[0] && (s + [c])[1..] == s[1..] + [c];
      EscapeSnoc(printable, s[1..], c);
    }
  }

  /** `escape_value`. */
  method EscapeValue(printable: char -> bool, value: string) returns (r: string)
    ensures r == Escape(printable, value)
  {
    r := "";
    for i := 0 to |value|
      invariant r == Escape(printable, value[..i])
    {
      assert value[..i + 1] == value[..i] + [value[i]];
      EscapeSnoc(printable, value[..i], value[i]);
      if printable(value[i]) {
        r := r + [value[i]];
      } else if value[i] == '\n' {
        r := r + "\\n";
      } else if value[i] == '\t' {
        r := r + "\\t";
      } else if value[i] == '\r' {
        r := r + "\\r";
      } else {
        r := r + ("\\x" + (if value[i] as int < 16 then "0" else "") + Hex(value[i] as int));
      }
    }
    assert value[..|value|] == value;
  }

  // ---------------------------------------------------------------------------
  // Tidy text: no white space but single blanks between words
  // ---------------------------------------------------------------------------

  /** `s` continues a text after a gap, or after a letter of a word, and ends in a word. */
  predicate Tidy(s: string, gap: bool) {
    if s == "" then !gap
    else if s[0] == ' ' then !gap && Tidy(s[1..], true)
    else !IsSpace(s[0]) && Tidy(s[1..], false)
  }

  predicate TidyText(s: string) {
    s == "" || Tidy(s, true)
  }

  lemma {:induction false} TidySolid(w: string, rest: string, gap: bool)
    requires Solid(w)
    ensures Tidy(w + rest, gap) == Tidy(rest, false)
  {
    var s := w + rest;
    assert s[0] == w[0] && s[1..] == w[1..] + rest;
    if |w| == 1 {
      assert w[1..] + rest == rest;
    } else {
      TidySolid(w[1..], rest, false);
    }
  }

  lemma {:induction false} JoinedTidy(words: seq<string>)
    requires words != [] && forall w :: w in words ==> Solid(w)
    ensures Tidy(JoinWords(words), true)
  {
    if |words| == 1 {
      TidySolid(words[0], "", true);
      assert words[0] + "" == words[0];
    } else {
      JoinedTidy(words[1..]);
      var rest := " " + JoinWords(words[1..]);
      assert rest[0] == ' ' && rest[1..] == JoinWords(words[1..]);
      TidySolid(words[0], rest, true);
      assert JoinWords(words) == words[0] + rest;
    }
  }

  /** Collapsing leaves tidy text... */
  lemma CollapsedIsTidy(s: string)
    ensures TidyText(JoinWords(Words(s)))
  {
    WordsSolid(s, "");
    if Words(s) != [] {
      JoinedTidy(Words(s));
    }
  }

  /** ...and leaves tidy text alone. */
  lemma {:induction false} TidyCollapses(s: string, word: string)
    requires Tidy(s, word == "") && (word == "" || Solid(word))
    ensures WordsFrom(s, word) != [] && JoinWords(WordsFrom(s, word)) == word + s
  {
    if s == "" {
      assert word + s == word;
    } else if s[0] == ' ' {
      TidyCollapses(s[1..], "");
      var rest := WordsFrom(s[1..], "");
      assert ([word] + rest)[0] == word && ([word] + rest)[1..] == rest;
      assert "" + s[1..] == s[1..];
      assert s == " " + s[1..];
    } else {
      TidyCollapses(s[1..], word + [s[0]]);
      assert word + [s[0]] + s[1..] == word + s;
    }
  }

  lemma {:induction false} TidyCut(s: string, gap: bool, k: nat, end: char)
    requires Tidy(s, gap) && k <= |s| && !IsSpace(end)
    ensures Tidy(s[..k] + [end], gap)
  {
    if k == 0 {
      assert s[..0] + [end] == [end] && [end][1..] == "";
    } else {
      TidyCut(s[1..], s[0] == ' ', k - 1, end);
      assert (s[..k] + [end])[0] == s[0] && (s[..k] + [end])[1..] == s[1..][..k - 1] + [end];
    }
  }

  // ---------------------------------------------------------------------------
  // Escaping keeps text tidy and makes it printable
  // ---------------------------------------------------------------------------

  lemma EscapedChar(printable: char -> bool, c: char)
    requires PrintableTable(printable)
    ensures AllPrintable(printable, EscapeChar(printable, c))
    ensures c != ' ' && !IsSpace(c) ==> Solid(EscapeChar(printable, c))
    ensures c == ' ' ==> EscapeChar(printable, c) == " "
  {
    if !printable(c) {
      var e := EscapeChar(printable, c);
      forall i | 0 <= i < |e| ensures 32 < e[i] as int <= 126 {
      }
    }
  }

  lemma {:induction false} EscapedPrintable(printable: char -> bool, s: string)
    requires PrintableTable(printable)
    ensures AllPrintable(printable, Escape(printable, s))
  {
    if s != "" {
      EscapedChar(printable, s[0]);
      EscapedPrintable(printable, s[1..]);
    }
  }

  lemma {:induction false} PrintableStays(printable: char -> bool, s: string)
    requires AllPrintable(printable, s)
    ensures Escape(printable, s) == s
  {
    if s != "" {
      assert printable(s[0]);
      assert AllPrintable(printable, s[1..]) by {
        forall i | 0 <= i < |s| - 1 ensures printable(s[1..][i]) {
          assert s[1..][i] == s[i + 1];
        }
      }
      PrintableStays(printable, s[1..]);
    }
  }

  lemma {:induction false} EscapedTidy(printable: char -> bool, s: string, gap: bool)
    requires PrintableTable(printable) && Tidy(s, gap)
    ensures Tidy(Escape(printable, s), gap)
  {
    if s != "" {
      EscapedChar(printable, s[0]);
      var rest := Escape(printable, s[1..]);
      EscapedTidy(printable, s[1..], s[0] == ' ');
      if s[0] == ' ' {
        assert (" " + rest)[0] == ' ' && (" " + rest)[1..] == rest;
      } else {
        TidySolid(EscapeChar(printable, s[0]), rest, gap);
      }
    }
  }

  // ---------------------------------------------------------------------------
  // Short values
  // ---------------------------------------------------------------------------

  function Flat(printable: char -> bool, value: string): string {
    Escape(printable, JoinWords(Words(value)))
  }

  function Short(printable: char -> bool, value: string): string {
    var flat := Flat(printable, value);
    if |flat| <= MAX_VALUE_CHARS then flat else flat[..MAX_VALUE_CHARS - 1] + [ELLIPSIS]
  }

  /** `short_value`. */
  method ShortValue(printable: char -> bool, value: string) returns (r: string)
    ensures r == Short(printable, value)
  {
    var flat := EscapeValue(printable, JoinWords(Words(value)));
    if |flat| <= MAX_VALUE_CHARS {
      return flat;
    }
    return flat[..MAX_VALUE_CHARS - 1] + [ELLIPSIS];
  }

  lemma FlatIsTidy(printable: char -> bool, value: string)
    requires PrintableTable(printable)
    ensures TidyText(Flat(printable, value)) && AllPrintable(printable, Flat(printable, value))
  {
    var joined := JoinWords(Words(value));
    CollapsedIsTidy(value);
    EscapedPrintable(printable, joined);
    if joined != "" {
      EscapedTidy(printable, joined, true);
    }
  }

  /** A short value has at most 160 characters, all printable, and no white space but single blanks
      between words; in particular it has no line break. */
  lemma ShortIsSafe(printable: char -> bool, value: string)
    requires PrintableTable(printable)
    ensures |Short(printable, value)| <= MAX_VALUE_CHARS && AllPrintable(printable, Short(printable, value))
    ensures TidyText(Short(printable, value))
  {
    var flat := Flat(printable, value);
    FlatIsTidy(printable, value);
    if |flat| > MAX_VALUE_CHARS {
      TidyCut(flat, true, MAX_VALUE_CHARS - 1, ELLIPSIS);
    }
  }

  lemma {:induction false} JoinedWords(words: seq<string>)
    requires forall w :: w in words ==> Solid(w)
    ensures Words(JoinWords(words)) == words
  {
    if words != [] {
      var head := words[0];
      assert Solid(head);
      SolidWord(head, "");
      assert "" + head == head;
      if |words| == 1 {
        assert words == [head];
      } else {
        var rest := JoinWords(words[1..]);
        JoinedWords(words[1..]);
        WordsOfJoined(head, ' ', rest, "");
        assert head + " " + rest == head + [' '] + rest;
        assert words == [head] + words[1..];
      }
    }
  }

  lemma {:induction false} SolidWord(w: string, word: string)
    requires forall i :: 0 <= i < |w| ==> !IsSpace(w[i])
    ensures WordsFrom(w, word) == Flush(word + w)
  {
    if w == "" {
      assert word + w == word;
    } else {
      SolidWord(w[1..], word + [w[0]]);
      assert word + [w[0]] + w[1..] == word + w;
    }
  }

  /** A short value keeps the words of a printable text that fits, in order; of a longer one it keeps the
      first 159 characters of the words with single blanks between them, and ends in an ellipsis. */
  lemma ShortKeepsWords(printable: char -> bool, value: string)
    requires AllPrintable(printable, JoinWords(Words(value)))
    ensures |JoinWords(Words(value))| <= 160 ==> Words(Short(printable, value)) == Words(value)
    ensures |JoinWords(Words(value))| > 160 ==>
              Short(printable, value) == JoinWords(Words(value))[..159] + ['\U{2026}']
  {
    PrintableStays(printable, JoinWords(Words(value)));
    WordsSolid(value, "");
    JoinedWords(Words(value));
  }

  /** Tidy printable text that fits is its own short value. */
  lemma SafeIsShort(printable: char -> bool, s: string)
    requires TidyText(s) && AllPrintable(printable, s) && |s| <= MAX_VALUE_CHARS
    ensures Short(printable, s) == s
  {
    if s == "" {
      assert Words(s) == [];
    } else {
      TidyCollapses(s, "");
      assert "" + s == s;
    }
    PrintableStays(printable, s);
  }

  /** Shortening twice is shortening once. */
  lemma ShortIdempotent(printable: char -> bool, value: string)
    requires PrintableTable(printable)
    ensures Short(printable, Short(printable, value)) == Short(printable, value)
  {
    ShortIsSafe(printable, value);
    SafeIsShort(printable, Short(printable, value));
  }

  /** The short values are exactly the safe ones. */
  lemma ShortExactly(printable: char -> bool, s: string)
    requires PrintableTable(printable)
    ensures Short(printable, s) == s <==> TidyText(s) && AllPrintable(printable, s) && |s| <= MAX_VALUE_CHARS
  {
    if TidyText(s) && AllPrintable(printable, s) && |s| <= MAX_VALUE_CHARS {
      SafeIsShort(printable, s);
    }
    ShortIsSafe(printable, s);
  }

  // ---------------------------------------------------------------------------
  // Lines
  // ---------------------------------------------------------------------------

  /** `_fit`. */
  function Fit(value: string, width: int): string {
    if |value| <= width then value
    else if |value| <= Larger(width - 1, 0) then value + [ELLIPSIS]
    else value[..Larger(width - 1, 0)] + [ELLIPSIS]
  }

  function Larger(a: int, b: int): int {
    if a >= b then a else b
  }

  function Smaller(a: int, b: int): int {
    if a <= b then a else b
  }

  /** A fitted text is never longer than its width, except that one character is always kept. */
  lemma FitLength(value: string, width: int)
    ensures |Fit(value, width)| == if |value| <= width then |value| else Larger(width, 1)
  {
  }

  const TIMELINE_MAX_WIDTH := 100

  function ConsoleWidth(columns: int): int {
    Larger(20, Smaller(TIMELINE_MAX_WIDTH, columns))
  }

  function LabelOf(k: Kind): (r: string)
    ensures |r| <= LABEL_WIDTH
  {
    match k
    case Start => "start" case User => "user" case Agent => "agent" case Model => "model"
    case ToolSelected => "tool selected" case ToolResult => "tool result" case Approval => "approval"
    case Retry => "retry" case StateChange => "state" case Done => "done" case Error => "error"
    case Cleanup => "cleanup"
  }

  const LABEL_WIDTH := 13
  const SOURCE_WIDTH := 11

  lemma SourceFits(s: Source)
    ensures |SourceValue(s)| <= SOURCE_WIDTH
  {
  }

  function Blanks(n: nat): (s: string)
    ensures |s| == n
  {
    seq(n, _ => ' ')
  }

  /** `f"{s:<{width}}"`. */
  function PadRight(s: string, width: nat): (r: string)
    ensures |r| == Larger(|s|, width)
  {
    if |s| >= width then s else s + Blanks(width - |s|)
  }

  /** `f"{s:>{width}}"`. */
  function PadLeft(s: string, width: nat): (r: string)
    ensures |r| == Larger(|s|, width)
  {
    if |s| >= width then s else Blanks(width - |s|) + s
  }

  function Marker(k: Kind): char {
    match k
    case Start => '\U{25C6}' case User => '\U{25CF}' case Agent => '\U{25CF}' case Model => '\U{00B7}'
    case ToolSelected => '\U{21B3}' case ToolResult => '\U{21B3}' case Approval => '!' case Retry => '\U{21BB}'
    case StateChange => '\U{25C7}' case Done => '\U{2713}' case Error => '\U{00D7}' case Cleanup => '\U{25CB}'
  }

  function Prefix(d: Display): string {
    (if d.kind.ToolSelected? || d.kind.ToolResult? then "  " else "")
    + PadLeft(Decimal(d.number), 3) + " " + [Marker(d.kind)] + " "
  }

  function ModelText(text: string): string {
    "(reasoning unavailable) " + ['\U{00B7}'] + " " + (if text == "" then "model response" else text)
  }

  function TextOf(d: Display): string {
    if d.kind.Model? then ModelText(d.text) else d.text
  }

  /** The columns left for the text. */
  function TextWidth(d: Display, columns: int): int {
    Larger(ConsoleWidth(columns) - |Prefix(d)| - LABEL_WIDTH - SOURCE_WIDTH - 3, 1)
  }

  function TimelineLine(printable: char -> bool, d: Display, columns: int): string {
    Prefix(d) + (PadRight(LabelOf(d.kind), LABEL_WIDTH) + " ") + PadRight(SourceValue(d.source), SOURCE_WIDTH)
    + ['\U{2502}', ' '] + Fit(Short(printable, TextOf(d)), TextWidth(d, columns))
  }

  /** `RichTimelineSink._print_line`: the text line is built piece by piece. */
  method PrintLine(printable: char -> bool, d: Display, columns: int) returns (line: string)
    ensures line == TimelineLine(printable, d, columns)
  {
    var name, source := LabelOf(d.kind), SourceValue(d.source);
    var text := d.text;
    if d.kind.Model? {
      text := ModelText(text);
    }
    var width := ConsoleWidth(columns);
    var prefix := Prefix(d);
    var textWidth := Larger(width - |prefix| - LABEL_WIDTH - SOURCE_WIDTH - 3, 1);
    var value := ShortValue(printable, text);
    if |value| > textWidth {
      value := value[..Larger(textWidth - 1, 0)] + [ELLIPSIS];
    }
    line := prefix;
    line := line + (PadRight(name, LABEL_WIDTH) + " ");
    line := line + PadRight(source, SOURCE_WIDTH);
    line := line + ['\U{2502}', ' '];
    line := line + value;
  }

  /** The labels read back. */
  function KindOfLabel(name: string): Option<Kind> {
    if name == "tool selected" then Some(ToolSelected) else if name == "tool result" then Some(ToolResult)
    else if name == "state" then Some(StateChange) else KindOfValue(name)
  }

  lemma LabelReads(k: Kind)
    ensures KindOfLabel(LabelOf(k)) == Some(k) && Trimmed(LabelOf(k))
  {
  }

  lemma SourceReads(s: Source)
    ensures SourceOfValue(SourceValue(s)) == Some(s) && Trimmed(SourceValue(s)) && |SourceValue(s)| <= SOURCE_WIDTH
  {
    NamesReadBack(Start, s);
  }

  predicate Trimmed(s: string) {
    s != "" && !IsSpace(s[0]) && !IsSpace(s[|s| - 1])
  }

  lemma {:induction false} PaddingStripsRight(s: string, n: nat)
    requires Trimmed(s)
    ensures StripRight(s + Blanks(n)) == s
  {
    if n == 0 {
      assert s + Blanks(0) == s;
    } else {
      var padded := s + Blanks(n);
      assert padded[..|padded| - 1] == s + Blanks(n - 1);
      PaddingStripsRight(s, n - 1);
    }
  }

  lemma {:induction false} PaddingStripsLeft(s: string, n: nat)
    requires Trimmed(s)
    ensures StripLeft(Blanks(n) + s) == s
  {
    if n == 0 {
      assert Blanks(0) + s == s;
    } else {
      var padded := Blanks(n) + s;
      assert padded[1..] == Blanks(n - 1) + s;
      PaddingStripsLeft(s, n - 1);
    }
  }

  /** What the line shows in its columns: the number, the kind and the source can be read back, and the rest
      is the short text, or as much of it as fits with an ellipsis. */
  lemma LineReadsBack(printable: char -> bool, d: Display, columns: int)
    ensures var line, p := TimelineLine(printable, d, columns), |Prefix(d)|;
            var short, width := Short(printable, TextOf(d)), TextWidth(d, columns);
            && 3 <= p <= |line| - 27 && ParseInt(line[..p - 3]) == Some(d.number)
            && KindOfLabel(StripRight(line[p..p + 13])) == Some(d.kind)
            && SourceOfValue(StripRight(line[p + 14..p + 25])) == Some(d.source)
            && (if |short| <= width then line[p + 27..] == short
                else |line[p + 27..]| == width && line[p + 27..] == short[..width - 1] + ['\U{2026}'])
  {
    PaddedReads(d.kind, d.source, PadRight(LabelOf(d.kind), LABEL_WIDTH),
                PadRight(SourceValue(d.source), SOURCE_WIDTH));
    NumberReads(d);
    LineColumns(printable, d, columns, TimelineLine(printable, d, columns), Prefix(d),
                Fit(Short(printable, TextOf(d)), TextWidth(d, columns)));
  }

  /** The text of an event stands for itself, except that a model's text follows a note that its reasoning
      is not shown; it gets what the other columns leave of the console, one at least. */
  lemma TextMeaning(d: Display, columns: int)
    ensures TextOf(d) == if !d.kind.Model? then d.text
                         else "(reasoning unavailable) " + ['\U{00B7}'] + " "
                              + if d.text == "" then "model response" else d.text
    ensures TextWidth(d, columns) == Larger((if columns < 20 then 20 else if columns > 100 then 100 else columns)
                                            - |Prefix(d)| - 27, 1)
    ensures |Prefix(d)| == (if d.kind.ToolSelected? || d.kind.ToolResult? then 2 else 0)
                           + Larger(|Decimal(d.number)|, 3) + 3
  {
  }

  /** The marker tells the kinds apart, except the two speakers and the two sides of a tool call. */
  lemma MarkersTell(k: Kind, l: Kind)
    ensures Marker(k) == Marker(l) <==>
              || k == l || (k in {User, Agent} && l in {User, Agent})
              || (k in {ToolSelected, ToolResult} && l in {ToolSelected, ToolResult})
  {
  }

  lemma PaddedReads(k: Kind, s: Source, name: string, source: string)
    requires name == PadRight(LabelOf(k), LABEL_WIDTH) && source == PadRight(SourceValue(s), SOURCE_WIDTH)
    ensures KindOfLabel(StripRight(name)) == Some(k) && SourceOfValue(StripRight(source)) == Some(s)
  {
    LabelReads(k);
    SourceReads(s);
    PaddingStripsRight(LabelOf(k), LABEL_WIDTH - |LabelOf(k)|);
    PaddingStripsRight(SourceValue(s), SOURCE_WIDTH - |SourceValue(s)|);
    assert LabelOf(k) + Blanks(0) == LabelOf(k) && SourceValue(s) + Blanks(0) == SourceValue(s);
  }

  lemma LineColumns(printable: char -> bool, d: Display, columns: int, line: string, prefix: string, value: string)
    requires line == TimelineLine(printable, d, columns) && prefix == Prefix(d) && |prefix| >= 3
    requires value == Fit(Short(printable, TextOf(d)), TextWidth(d, columns))
    ensures |line| == |prefix| + 27 + |value| && line[..|prefix| - 3] == prefix[..|prefix| - 3]
    ensures line[|prefix|..|prefix| + 13] == PadRight(LabelOf(d.kind), LABEL_WIDTH)
    ensures line[|prefix| + 14..|prefix| + 25] == PadRight(SourceValue(d.source), SOURCE_WIDTH)
    ensures line[|prefix| + 27..] == value
  {
    SourceFits(d.source);
    Columns(line, prefix, PadRight(LabelOf(d.kind), LABEL_WIDTH), PadRight(SourceValue(d.source), SOURCE_WIDTH),
            ['\U{2502}', ' '], value);
  }

  lemma Columns(line: string, prefix: string, name: string, source: string, bar: string, value: string)
    requires line == prefix + (name + " ") + source + bar + value
    requires |prefix| >= 3 && |name| == 13 && |source| == 11 && |bar| == 2
    ensures |line| == |prefix| + 27 + |value| && line[..|prefix| - 3] == prefix[..|prefix| - 3]
    ensures line[|prefix|..|prefix| + 13] == name && line[|prefix| + 14..|prefix| + 25] == source
    ensures line[|prefix| + 27..] == value
  {
  }

  lemma NumberReads(d: Display)
    ensures |Prefix(d)| >= 3 && ParseInt(Prefix(d)[..|Prefix(d)| - 3]) == Some(d.number)
  {
    var indent: string := if d.kind.ToolSelected? || d.kind.ToolResult? then "  " else "";
    var digits := Decimal(d.number);
    var n := Head(Prefix(d), indent, PadLeft(digits, 3), digits, Marker(d.kind));
    DecimalRoundTrip(d.number);
    PaddedParses(digits, n);
  }

  lemma Head(prefix: string, indent: string, padded: string, digits: string, marker: char) returns (n: nat)
    requires prefix == indent + padded + " " + [marker] + " "
    requires (indent == "" || indent == "  ") && padded == PadLeft(digits, 3)
    ensures |prefix| >= 3 && prefix[..|prefix| - 3] == Blanks(n) + digits
  {
    n := |indent| + |padded| - |digits|;
    assert padded == Blanks(|padded| - |digits|) + digits;
    assert indent == Blanks(|indent|);
    assert indent + padded == Blanks(n) + digits;
    assert prefix[..|prefix| - 3] == indent + padded;
  }

  lemma PaddedParses(digits: string, n: nat)
    requires Trimmed(digits)
    ensures ParseInt(Blanks(n) + digits) == ParseInt(digits)
  {
    PaddingStripsLeft(digits, n);
  }

  lemma LineLength(printable: char -> bool, d: Display, columns: int)
    ensures |TimelineLine(printable, d, columns)|
         == |Prefix(d)| + 27 + Smaller(|Short(printable, TextOf(d))|, TextWidth(d, columns))
  {
    SourceFits(d.source);
    FitLength(Short(printable, TextOf(d)), TextWidth(d, columns));
  }

  /** A line fits the console, whose width is taken between 20 and 100, unless the prefix leaves less
      than one column for the text; then it is 28 characters longer than its prefix at most. It
      overflows exactly when there is text that does not fit. */
  lemma LineBound(printable: char -> bool, d: Display, columns: int)
    ensures |TimelineLine(printable, d, columns)| <= Larger(ConsoleWidth(columns), |Prefix(d)| + 28)
    ensures |TimelineLine(printable, d, columns)| > ConsoleWidth(columns)
       <==> |Prefix(d)| + 27 + Smaller(|Short(printable, TextOf(d))|, 1) > ConsoleWidth(columns)
    ensures ConsoleWidth(columns) == if columns < 20 then 20 else if columns > 100 then 100 else columns
  {
    LineLength(printable, d, columns);
  }
}
