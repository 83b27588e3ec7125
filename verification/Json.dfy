/** The JSON text that Go's encoding/json writes for a record of strings, and a reader for
    it after section 7 of RFC 8259. Text is a sequence of Unicode scalar values. */
module Json {
  import opened Wrappers
  import opened Automata

  datatype Field = Field(key: string, value: string)

  // ----- Writing -----

  function HexDigit(d: nat): char
    requires d < 16
  {
    if d < 10 then ('0' as int + d) as char else ('a' as int + d - 10) as char
  }

  /** `\uXXXX` */
  function UnicodeEscape(v: nat): string
    requires v < 0x10000
  {
    ['\\', 'u', HexDigit(v / 0x1000), HexDigit(v / 0x100 % 16), HexDigit(v / 16 % 16), HexDigit(v % 16)]
  }

  /** json.Marshal also escapes what would be markup in HTML or a line end in JavaScript. */
  predicate ByNumber(c: char) {
    c < ' ' || c == '<' || c == '>' || c == '&' || c == '\U{2028}' || c == '\U{2029}'
  }

  function Letter(c: char): Option<char> {
    match c
    case '"' => Some('"')
    case '\\' => Some('\\')
    case '\U{08}' => Some('b')
    case '\U{0C}' => Some('f')
    case '\n' => Some('n')
    case '\r' => Some('r')
    case '\t' => Some('t')
    case _ => None
  }

  function EscapedChar(c: char): string {
    match Letter(c)
    case Some(letter) => ['\\', letter]
    case None => if ByNumber(c) then UnicodeEscape(c as nat) else [c]
  }

  function Escaped(s: string): string {
    if |s| == 0 then "" else Escaped(s[..|s| - 1]) + EscapedChar(s[|s| - 1])
  }

  function Quoted(s: string): string {
    ['"'] + Escaped(s) + ['"']
  }

  function Member(f: Field): string {
    Quoted(f.key) + [':'] + Quoted(f.value)
  }

  function Members(fields: seq<Field>): string {
    if |fields| == 0 then ""
    else if |fields| == 1 then Member(fields[0])
    else Members(fields[..|fields| - 1]) + [','] + Member(fields[|fields| - 1])
  }

  function Object(fields: seq<Field>): string {
    ['{'] + Members(fields) + ['}']
  }

  // ----- Reading -----

  datatype Part = Key | Value

  datatype Mode =
    | Begin
    | Open                             // after {
    | NextKey                          // after ,
    | Text(part: Part)                 // inside quotes
    | Escape(part: Part)               // after a backslash
    | Hex(part: Part, n: nat, v: nat)  // after \u and n digits
    | Colon                            // after a key
    | NextValue                        // after :
    | Comma                            // after a value
    | End                              // after }
    | Bad

  /** `high` is the first half of a surrogate pair that waits for its second, or 0. */
  datatype Reader = Reader(mode: Mode, text: string, high: nat, key: string, fields: map<string, string>)

  predicate Blank(c: char) {
    c == ' ' || c == '\t' || c == '\n' || c == '\r'
  }

  function DigitValue(c: char): Option<nat> {
    if '0' <= c <= '9' then Some(c as nat - '0' as nat)
    else if 'a' <= c <= 'f' then Some(c as nat - 'a' as nat + 10)
    else if 'A' <= c <= 'F' then Some(c as nat - 'A' as nat + 10)
    else None
  }

  function Unescaped(letter: char): Option<char> {
    match letter
    case '"' => Some('"')
    case '\\' => Some('\\')
    case '/' => Some('/')
    case 'b' => Some('\U{08}')
    case 'f' => Some('\U{0C}')
    case 'n' => Some('\n')
    case 'r' => Some('\r')
    case 't' => Some('\t')
    case _ => None
  }

  function Fail(r: Reader): Reader {
    r.(mode := Bad)
  }

  function Append(r: Reader, part: Part, c: char): Reader {
    r.(mode := Text(part), text := r.text + [c])
  }

  function InText(r: Reader, part: Part, c: char): Reader {
    if c == '\\' then r.(mode := Escape(part))
    else if c < ' ' || r.high != 0 then Fail(r)
    else if c != '"' then Append(r, part, c)
    else if part == Key then r.(mode := Colon, key := r.text, text := "")
    else r.(mode := Comma, text := "", fields := r.fields[r.key := r.text])
  }

  function InEscape(r: Reader, part: Part, c: char): Reader {
    if c == 'u' then r.(mode := Hex(part, 0, 0))
    else if r.high != 0 || Unescaped(c).None? then Fail(r)
    else Append(r, part, Unescaped(c).value)
  }

  function Numbered(r: Reader, part: Part, v: nat): Reader {
    if r.high == 0 then
      if 0xD800 <= v < 0xDC00 then r.(mode := Text(part), high := v)
      else if v < 0xD800 || 0xE000 <= v < 0x10000 then Append(r, part, v as char)
      else Fail(r)
    else if 0xDC00 <= v < 0xE000 && 0xD800 <= r.high < 0xDC00 then
      Append(r.(high := 0), part, (0x10000 + (r.high - 0xD800) * 0x400 + (v - 0xDC00)) as char)
    else Fail(r)
  }

  function InHex(r: Reader, part: Part, n: nat, v: nat, c: char): Reader {
    match DigitValue(c)
    case None => Fail(r)
    case Some(d) =>
      if n == 3 then Numbered(r, part, 16 * v + d) else r.(mode := Hex(part, n + 1, 16 * v + d))
  }

  function Step(r: Reader, c: char): Reader {
    match r.mode
    case Text(part) => InText(r, part, c)
    case Escape(part) => InEscape(r, part, c)
    case Hex(part, n, v) => InHex(r, part, n, v, c)
    case Bad => r
    case mode =>
      if Blank(c) then r
      else if mode == Begin && c == '{' then r.(mode := Open)
      else if mode == Open && c == '}' then r.(mode := End)
      else if (mode == Open || mode == NextKey) && c == '"' then r.(mode := Text(Key))
      else if mode == Colon && c == ':' then r.(mode := NextValue)
      else if mode == NextValue && c == '"' then r.(mode := Text(Value))
      else if mode == Comma && c == ',' then r.(mode := NextKey)
      else if mode == Comma && c == '}' then r.(mode := End)
      else Fail(r)
  }

  const START := Reader(Begin, "", 0, "", map[])

  /** The members of an object whose values are all strings. */
  function Decode(text: string): Option<map<string, string>> {
    var r := Feed(Step, START, text);
    if r.mode == End then Some(r.fields) else None
  }

  // ----- Round trip -----

  function Fields(fields: seq<Field>): map<string, string> {
    if |fields| == 0 then map[]
    else Fields(fields[..|fields| - 1])[fields[|fields| - 1].key := fields[|fields| - 1].value]
  }

  lemma DigitReadsBack(d: nat)
    requires d < 16
    ensures DigitValue(HexDigit(d)) == Some(d)
  {
  }

  lemma StepHex(r: Reader, part: Part, n: nat, v: nat, d: nat)
    requires d < 16 && n < 3 && r.mode == Hex(part, n, v)
    ensures Step(r, HexDigit(d)) == r.(mode := Hex(part, n + 1, 16 * v + d))
  {
    DigitReadsBack(d);
    hide DigitValue, HexDigit;
  }

  lemma StepLastHex(r: Reader, part: Part, v: nat, d: nat)
    requires d < 16 && r.mode == Hex(part, 3, v) && r.high == 0 && 16 * v + d < 0xD800
    ensures Step(r, HexDigit(d)) == Append(r, part, (16 * v + d) as char)
  {
    DigitReadsBack(d);
    hide DigitValue, HexDigit;
  }

  lemma HexDigits(v: nat)
    requires v < 0x10000
    ensures v / 0x1000 < 16
    ensures 16 * (16 * (16 * (v / 0x1000) + v / 0x100 % 16) + v / 16 % 16) + v % 16 == v
  {
  }

  lemma StepIntoHex(r: Reader, part: Part)
    requires r.mode == Text(part)
    ensures Feed(Step, r, ['\\', 'u']) == r.(mode := Hex(part, 0, 0))
  {
    FeedTwo(Step, r, '\\', 'u');
  }

  lemma EscapeParts(v: nat, a: nat, b: nat, c: nat, d: nat)
    requires v < 0x10000 && a == v / 0x1000 && b == v / 0x100 % 16 && c == v / 16 % 16 && d == v % 16
    ensures a < 16 && UnicodeEscape(v) == ['\\', 'u'] + [HexDigit(a), HexDigit(b)] + [HexDigit(c), HexDigit(d)]
  {
    hide HexDigit;
  }

  lemma ReadUnicodeEscape(r: Reader, part: Part, v: nat)
    requires r.mode == Text(part) && r.high == 0 && v < 0xD800
    ensures Feed(Step, r, UnicodeEscape(v)) == Append(r, part, v as char)
  {
    hide HexDigit, UnicodeEscape, Step, Feed;
    var a, b, c, d := v / 0x1000, v / 0x100 % 16, v / 16 % 16, v % 16;
    HexDigits(v);
    EscapeParts(v, a, b, c, d);
    StepIntoHex(r, part);
    var half := FourDigits(r.(mode := Hex(part, 0, 0)), part, a, b, c, d);
    FeedConcat(Step, r, ['\\', 'u'], [HexDigit(a), HexDigit(b)]);
    FeedConcat(Step, r, ['\\', 'u'] + [HexDigit(a), HexDigit(b)], [HexDigit(c), HexDigit(d)]);
  }

  lemma FourDigits(r: Reader, part: Part, a: nat, b: nat, c: nat, d: nat) returns (half: Reader)
    requires r.mode == Hex(part, 0, 0) && r.high == 0 && a < 16 && b < 16 && c < 16 && d < 16
    requires 16 * (16 * (16 * a + b) + c) + d < 0xD800
    ensures half == Feed(Step, r, [HexDigit(a), HexDigit(b)])
    ensures Feed(Step, half, [HexDigit(c), HexDigit(d)]) ==
            Append(r, part, (16 * (16 * (16 * a + b) + c) + d) as char)
  {
    hide HexDigit, Step, Feed;
    StepHex(r, part, 0, 0, a);
    StepHex(r.(mode := Hex(part, 1, a)), part, 1, a, b);
    FeedTwo(Step, r, HexDigit(a), HexDigit(b));
    half := r.(mode := Hex(part, 2, 16 * a + b));
    StepHex(half, part, 2, 16 * a + b, c);
    StepLastHex(half.(mode := Hex(part, 3, 16 * (16 * a + b) + c)), part, 16 * (16 * a + b) + c, d);
    FeedTwo(Step, half, HexDigit(c), HexDigit(d));
  }

  lemma LetterReadsBack(c: char)
    requires Letter(c).Some?
    ensures Unescaped(Letter(c).value) == Some(c) && Letter(c).value != 'u'
  {
  }

  lemma ReadChar(r: Reader, part: Part, c: char)
    requires r.mode == Text(part) && r.high == 0
    ensures Feed(Step, r, EscapedChar(c)) == Append(r, part, c)
  {
    hide Feed, Unescaped, UnicodeEscape;
    if Letter(c).Some? {
      LetterReadsBack(c);
      FeedTwo(Step, r, '\\', Letter(c).value);
      hide Letter;
    } else if ByNumber(c) {
      ReadUnicodeEscape(r, part, c as nat);
      hide Letter, Step;
    } else {
      FeedOne(Step, r, c);
    }
  }

  lemma {:induction false} ReadEscaped(r: Reader, part: Part, s: string)
    requires r.mode == Text(part) && r.high == 0
    ensures Feed(Step, r, Escaped(s)) == r.(text := r.text + s)
  {
    hide EscapedChar;
    if |s| == 0 {
    } else {
      var front, last := s[..|s| - 1], s[|s| - 1];
      ReadEscaped(r, part, front);
      ReadChar(r.(text := r.text + front), part, last);
      FeedConcat(Step, r, Escaped(front), EscapedChar(last));
      assert r.text + s == r.text + front + [last];
    }
  }


  lemma {:induction false} ReadQuoted(r: Reader, part: Part, s: string)
    requires r.text == "" && r.high == 0
    requires if part == Key then r.mode == Open || r.mode == NextKey else r.mode == NextValue
    ensures Feed(Step, r, Quoted(s)) ==
      if part == Key then r.(mode := Colon, key := s) else r.(mode := Comma, fields := r.fields[r.key := s])
  {
    hide Escaped;
    var inside := r.(mode := Text(part));
    FeedOne(Step, r, '"');
    ReadEscaped(inside, part, s);
    FeedConcat(Step, r, ['"'], Escaped(s));
    assert inside.text + s == s;
    FeedOne(Step, inside.(text := s), '"');
    FeedConcat(Step, r, ['"'] + Escaped(s), ['"']);
  }

  lemma ReadMember(r: Reader, f: Field)
    requires r.text == "" && r.high == 0 && (r.mode == Open || r.mode == NextKey)
    ensures Feed(Step, r, Member(f)) == r.(mode := Comma, key := f.key, fields := r.fields[f.key := f.value])
  {
    hide Quoted;
    ReadQuoted(r, Key, f.key);
    var named := r.(mode := Colon, key := f.key);
    FeedOne(Step, named, ':');
    FeedConcat(Step, r, Quoted(f.key), [':']);
    ReadQuoted(named.(mode := NextValue), Value, f.value);
    FeedConcat(Step, r, Quoted(f.key) + [':'], Quoted(f.value));
  }

  function LastKey(fields: seq<Field>): string {
    if |fields| == 0 then "" else fields[|fields| - 1].key
  }

  lemma {:induction false} ReadMembers(fields: seq<Field>)
    ensures Feed(Step, START.(mode := Open), Members(fields)) ==
      Reader(if |fields| == 0 then Open else Comma, "", 0, LastKey(fields), Fields(fields))
  {
    hide Member, Step;
    var open := START.(mode := Open);
    if |fields| == 0 {
    } else {
      var front, last := fields[..|fields| - 1], fields[|fields| - 1];
      ReadMembers(front);
      if |fields| == 1 {
        ReadMember(open, last);
        assert |front| == 0 && Fields(front) == map[];
      } else {
        var before := Reader(Comma, "", 0, LastKey(front), Fields(front));
        ReadComma(before);
        FeedConcat(Step, open, Members(front), [',']);
        ReadMember(before.(mode := NextKey), last);
        FeedConcat(Step, open, Members(front) + [','], Member(last));
      }
    }
  }

  lemma ReadComma(r: Reader)
    requires r.mode == Comma
    ensures Feed(Step, r, [',']) == r.(mode := NextKey)
  {
    FeedOne(Step, r, ',');
  }

  /** Decoding inverts encoding, for every record and every text in it. */
  lemma {:induction false} ObjectReadsBack(fields: seq<Field>)
    ensures Decode(Object(fields)) == Some(Fields(fields))
  {
    hide Members;
    FeedOne(Step, START, '{');
    ReadMembers(fields);
    FeedConcat(Step, START, ['{'], Members(fields));
    var r := Feed(Step, START, ['{'] + Members(fields));
    FeedOne(Step, r, '}');
    FeedConcat(Step, START, ['{'] + Members(fields), ['}']);
  }

  // ----- What the text is made of -----

  /** No line break in any format it may be put into, and no markup. */
  predicate OneLine(s: string) {
    forall c <- s :: ' ' <= c && c != '\U{2028}' && c != '\U{2029}' && c != '<' && c != '>' && c != '&'
  }

  lemma EscapedCharIsOneLine(c: char)
    ensures OneLine(EscapedChar(c))
  {
  }

  lemma {:induction false} EscapedIsOneLine(s: string)
    ensures OneLine(Escaped(s))
  {
    if 0 < |s| {
      EscapedIsOneLine(s[..|s| - 1]);
      EscapedCharIsOneLine(s[|s| - 1]);
    }
  }

  /** Escaping leaves no raw control character, so no line break, and no markup in the text. */
  lemma {:induction false} MembersAreOneLine(fields: seq<Field>)
    ensures OneLine(Members(fields))
  {
    hide Escaped;
    if 0 < |fields| {
      var last := fields[|fields| - 1];
      MembersAreOneLine(fields[..|fields| - 1]);
      EscapedIsOneLine(last.key);
      EscapedIsOneLine(last.value);
    }
  }
}
