// src/transactions/TransactionReader.cpp: the script parser, on the text of the file, and
// the scripts it reads back.
module Script {
  import opened Basics
  import opened Transactions

  datatype ScriptFile = ScriptFile(layer: int, readOnly: bool, transactions: seq<TransactionData>)

  // ---------------------------------------------------------- std::string

  // find of a single character; None is npos.
  function FindChar(s: string, c: char): (r: Option<nat>)
    ensures r.Some? ==> r.value < |s| && s[r.value] == c && c !in s[..r.value]
    ensures r.None? ==> c !in s
  {
    if s == [] then None
    else if s[0] == c then Some(0)
    else
      var rest := FindChar(s[1..], c);
      assert forall d :: d in s <==> d == s[0] || d in s[1..];
      assert rest.Some? ==> s[..rest.value + 1] == [s[0]] + s[1..][..rest.value];
      if rest.Some? then Some(rest.value + 1) else None
  }

  // Does p occur in s?
  predicate Occurs(s: string, p: string) {
    |p| <= |s| && (p == s[..|p|] || Occurs(s[1..], p))
  }

  // substr(pos, count); a count that wrapped around below zero reaches the end.
  function Substr(s: string, pos: nat, count: int): string
    requires pos <= |s|
  {
    if 0 <= count <= |s| - pos then s[pos..pos + count] else s[pos..]
  }

  // ------------------------------------------------------- stream extraction

  predicate IsSpace(c: char) {
    c == ' ' || 9 <= c as int <= 13
  }

  predicate IsDigit(c: char) {
    '0' <= c <= '9'
  }

  function DigitValue(c: char): nat
    requires IsDigit(c)
  {
    c as int - '0' as int
  }

  function SkipSpace(s: string): (r: string)
    ensures |r| <= |s| && (r != [] ==> !IsSpace(r[0]))
  {
    if s != [] && IsSpace(s[0]) then SkipSpace(s[1..]) else s
  }

  // The length of the word, or of the number, at the start of s.
  function WordLength(s: string): (n: nat)
    ensures n <= |s|
  {
    if s == [] || IsSpace(s[0]) then 0 else 1 + WordLength(s[1..])
  }

  function DigitRun(s: string): (n: nat)
    ensures n <= |s| && forall k :: 0 <= k < n ==> IsDigit(s[k])
  {
    if s == [] || !IsDigit(s[0]) then 0 else 1 + DigitRun(s[1..])
  }

  function Value(digits: string): nat
    requires forall k :: 0 <= k < |digits| ==> IsDigit(digits[k])
  {
    if digits == [] then 0
    else 10 * Value(digits[..|digits| - 1]) + DigitValue(digits[|digits| - 1])
  }

  const INT_MAX := 0x7fff_ffff
  const INT_MIN := -0x8000_0000

  function Clamp(v: int): int {
    if v > INT_MAX then INT_MAX else if v < INT_MIN then INT_MIN else v
  }

  datatype IntRead = IntRead(ok: bool, value: int)

  function ReadUnsigned(body: string, negative: bool): IntRead {
    var n := DigitRun(body);
    if n == 0 then IntRead(false, 0)
    else
      var v: int := if negative then -(Value(body[..n]) as int) else Value(body[..n]);
      IntRead(Clamp(v) == v, Clamp(v))
  }

  // stream >> int on a fresh variable: 0 if there is no number, the nearest int and a
  // failed stream if it is out of range.
  function ReadInt(text: string): IntRead {
    var s := SkipSpace(text);
    ReadUnsigned(if s != [] && (s[0] == '-' || s[0] == '+') then s[1..] else s, s != [] && s[0] == '-')
  }

  // ------------------------------------------------------------ the parsers

  // Where the header holds its number: substr(find("b") + 1, find(",")).
  function HeaderText(line: string): string {
    var b, comma := FindChar(line, 'b'), FindChar(line, ',');
    var count: int := if comma.Some? then comma.value else -1;
    Substr(line, if b.Some? then b.value + 1 else 0, count)
  }

  function HeaderNumber(line: string): IntRead {
    ReadInt(HeaderText(line))
  }

  function ParseLayer(line: string): int {
    if line == [] then 0
    else
      var r := HeaderNumber(line);
      if r.ok && 0 < r.value < 3 then r.value else 0
  }

  predicate IsReadOnly(line: string) {
    line != [] && HeaderNumber(line).ok && 0 <= HeaderNumber(line).value < 3
  }

  function TypeNamed(name: string): (kind: TransactionType)
    ensures !kind.READ? && !kind.SET?
  {
    if Occurs(name, "sum") then SUM
    else if Occurs(name, "subs") then SUBSTRACT
    else if Occurs(name, "mult") then MULTIPLY
    else UNKOWN
  }

  // From behind the first "(" up to and with the first ",".
  function NamePart(s: string): string {
    var start, mid := FindChar(s, '('), FindChar(s, ',');
    if start.Some? && mid.Some? then Substr(s, start.value + 1, mid.value as int - start.value) else []
  }

  // From behind the first "," up to and with the first ")".
  function NumberPart(s: string): string {
    var mid, finish := FindChar(s, ','), FindChar(s, ')');
    if mid.Some? && finish.Some? then Substr(s, mid.value + 1, finish.value as int - mid.value) else []
  }

  function ParseTransaction(s: string): TransactionData {
    var start, mid, finish := FindChar(s, '('), FindChar(s, ','), FindChar(s, ')');
    if 'r' in s then
      if start.Some? && finish.Some? then
        TransactionData(READ, ReadInt(Substr(s, start.value, finish.value as int - start.value)).value)
      else TransactionData(READ, 0)
    else if 'w' in s && start.Some? && mid.Some? && finish.Some? then
      TransactionData(TypeNamed(NamePart(s)), ReadInt(NumberPart(s)).value)
    else TransactionData(UNKOWN, 0)
  }

  // The words of a text.
  function Tokens(text: string): seq<string>
    decreases |text|
  {
    var s := SkipSpace(text);
    if s == [] then [] else
      var n := WordLength(s);
      [s[..n]] + Tokens(s[n..])
  }

  // The transactions of a list of words, those of unknown type left out.
  function ParseAll(words: seq<string>): seq<TransactionData> {
    if words == [] then []
    else
      var t := ParseTransaction(words[0]);
      (if t.kind.UNKOWN? then [] else [t]) + ParseAll(words[1..])
  }

  function ParseScript(text: string): ScriptFile {
    var words := Tokens(text);
    if words == [] then ScriptFile(0, false, [])
    else ScriptFile(ParseLayer(words[0]), IsReadOnly(words[0]), ParseAll(words[1..]))
  }

  // ------------------------------------------------------------ the methods

  // file >> token: the next word, if any, and what is left.
  method ExtractToken(text: string) returns (found: bool, token: string, rest: string)
    ensures found == (Tokens(text) != [])
    ensures found ==> Tokens(text) == [token] + Tokens(rest) && |rest| < |text|
    ensures !found ==> token == [] && rest == []
  {
    var s := text;
    while s != [] && IsSpace(s[0])
      invariant SkipSpace(s) == SkipSpace(text) && |s| <= |text|
    {
      s := s[1..];
    }
    var n := 0;
    while n < |s| && !IsSpace(s[n])
      invariant 0 <= n <= |s|
      invariant n + WordLength(s[n..]) == WordLength(s)
    {
      assert s[n..][1..] == s[n + 1..];
      n := n + 1;
    }
    found, token, rest := s != [], s[..n], s[n..];
  }

  // push_back, unless the type is unknown.
  function Pushed(done: seq<TransactionData>, token: string): seq<TransactionData> {
    var data := ParseTransaction(token);
    if data.kind.UNKOWN? then done else done + [data]
  }

  lemma PushedFirst(done: seq<TransactionData>, token: string, rest: seq<string>)
    ensures Pushed(done, token) + ParseAll(rest) == done + ParseAll([token] + rest)
  {
    var words := [token] + rest;
    assert words[0] == token && words[1..] == rest;
    var data := ParseTransaction(token);
    Reassociate(done, if data.kind.UNKOWN? then [] else [data], ParseAll(rest));
  }

  // TransactionReader::ReadTransactions, on the contents of the file.
  method ReadTransactions(text: string) returns (transactions: ScriptFile)
    ensures transactions == ParseScript(text)
  {
    var found, token, rest := ExtractToken(text);
    transactions := ScriptFile(ParseLayer(token), IsReadOnly(token), []);
    ghost var target := ParseScript(text);
    while found
      invariant transactions.layer == target.layer && transactions.readOnly == target.readOnly
      invariant found ==> transactions.transactions + ParseAll(Tokens(rest)) == target.transactions
      invariant !found ==> transactions.transactions == target.transactions
      decreases found, |rest|
    {
      found, token, rest := ExtractToken(rest);
      if found {
        var data := ParseTransaction(token);
        PushedFirst(transactions.transactions, token, Tokens(rest));
        if !data.kind.UNKOWN? {
          transactions := transactions.(transactions := transactions.transactions + [data]);
        }
      }
    }
  }

  // ------------------------------------------------------- writing a script

  function Digits(n: nat): (r: string)
    ensures |r| > 0 && forall k :: 0 <= k < |r| ==> IsDigit(r[k])
  {
    (if n < 10 then [] else Digits(n / 10)) + [(n % 10 + '0' as int) as char]
  }

  function Decimal(v: int): string {
    if v < 0 then ['-'] + Digits(-v) else Digits(v)
  }

  // An entry of a script as it is written: r(5) or w(sum,5), with a comma after all entries
  // but the last, or a word that is no entry at all.
  datatype Item =
    | Write(kind: TransactionType, value: int, comma: bool)
    | Read(value: int, comma: bool)
    | Junk(word: string)

  function Name(kind: TransactionType): string {
    if kind.SUM? then "sum" else if kind.SUBSTRACT? then "subs" else "mult"
  }

  function Comma(comma: bool): string {
    if comma then [','] else []
  }

  function Render(item: Item): string {
    match item
    case Write(kind, value, comma) => ['w', '('] + Name(kind) + [','] + Decimal(value) + [')'] + Comma(comma)
    case Read(value, comma) => ['r', '('] + Decimal(value) + [')'] + Comma(comma)
    case Junk(word) => word
  }

  // "b0," to "b2,", or "b," for a script that is not read-only.
  function RenderHeader(layer: Option<int>, comma: bool): string {
    ['b'] + (if layer.Some? then Decimal(layer.value) else []) + Comma(comma)
  }

  function RenderAll(items: seq<Item>): (r: seq<string>)
    ensures |r| == |items|
  {
    if items == [] then [] else [Render(items[0])] + RenderAll(items[1..])
  }

  // The six characters of white space: blank, tab, newline, vertical tab, form feed, return.
  const WHITE: set<char> := {' ', '\t', '\n', 11 as char, 12 as char, '\r'}

  predicate IsWord(w: string) {
    w != [] && forall k :: 0 <= k < |w| ==> w[k] !in WHITE
  }

  predicate IsGap(w: string) {
    forall k :: 0 <= k < |w| ==> w[k] in WHITE
  }

  lemma SpaceIsWhite(c: char)
    ensures IsSpace(c) <==> c in WHITE
  {
  }

  predicate Malformed(w: string) {
    'w' !in w || '(' !in w || ',' !in w || ')' !in w
  }

  // A word the reader leaves out: it has no r, and lacks a part or names no operation.
  predicate Dropped(w: string) {
    'r' !in w && (Malformed(w) || TypeNamed(NamePart(w)).UNKOWN?)
  }

  predicate ItemOk(item: Item) {
    match item
    case Write(kind, _, _) => kind.SUM? || kind.SUBSTRACT? || kind.MULTIPLY?
    case Read(_, _) => true
    case Junk(word) => IsWord(word) && Dropped(word)
  }

  // Words, each followed by its gap.
  function Layout(words: seq<string>, gaps: seq<string>): string
    requires |words| == |gaps|
  {
    if words == [] then [] else words[0] + (gaps[0] + Layout(words[1..], gaps[1..]))
  }

  // Only the last gap may be empty.
  predicate GapsOk(gaps: seq<string>) {
    forall k :: 0 <= k < |gaps| ==> IsGap(gaps[k]) && (k + 1 < |gaps| ==> gaps[k] != [])
  }

  // What the entries of a script ask for.
  function Meaning(items: seq<Item>): seq<TransactionData> {
    if items == [] then [] else Asked(items[0]) + Meaning(items[1..])
  }

  function Asked(item: Item): seq<TransactionData> {
    match item
    case Write(kind, value, _) => [TransactionData(kind, Clamp(value))]
    case Read(_, _) => [TransactionData(READ, 0)]
    case Junk(_) => []
  }

  // -------------------------------------------------------------- round trip

  lemma {:induction false} ValueOfDigits(n: nat)
    ensures Value(Digits(n)) == n
  {
    var d := Digits(n);
    var c := (n % 10 + '0' as int) as char;
    assert d[|d| - 1] == c && d[..|d| - 1] == if n < 10 then [] else Digits(n / 10);
    if n >= 10 {
      ValueOfDigits(n / 10);
    }
  }

  lemma {:induction false} RunOfDigits(digits: string, rest: string)
    requires forall k :: 0 <= k < |digits| ==> IsDigit(digits[k])
    requires rest != [] ==> !IsDigit(rest[0])
    ensures DigitRun(digits + rest) == |digits|
  {
    if digits == [] {
      assert digits + rest == rest;
    } else {
      assert (digits + rest)[1..] == digits[1..] + rest;
      RunOfDigits(digits[1..], rest);
    }
  }

  lemma ReadDigits(n: nat, negative: bool, rest: string)
    requires rest != [] ==> !IsDigit(rest[0])
    ensures var v: int := if negative then -(n as int) else n;
      ReadUnsigned(Digits(n) + rest, negative) == IntRead(INT_MIN <= v <= INT_MAX, Clamp(v))
  {
    ValueOfDigits(n);
    RunOfDigits(Digits(n), rest);
    assert (Digits(n) + rest)[..|Digits(n)|] == Digits(n);
  }

  // A number in decimal, up to the first character that is no digit, is read back exactly
  // when it fits in 32 bits, and as the nearest 32-bit number otherwise.
  lemma ReadDecimal(v: int, rest: string)
    requires rest != [] ==> !IsDigit(rest[0])
    ensures ReadInt(Decimal(v) + rest) == IntRead(-2147483648 <= v <= 2147483647, Clamp(v))
  {
    if v < 0 {
      ReadDigits(-v, true, rest);
      Reassociate(['-'], Digits(-v), rest);
      ReadMinus(Digits(-v) + rest);
    } else {
      ReadDigits(v, false, rest);
      ReadPlain(Digits(v) + rest);
    }
  }

  // 32 bits, two's complement: the nearest value.
  lemma ClampIsNearest(v: int)
    ensures -2147483648 <= Clamp(v) <= 2147483647
    ensures v > 2147483647 ==> Clamp(v) == 2147483647
    ensures v < -2147483648 ==> Clamp(v) == -2147483648
    ensures -2147483648 <= v <= 2147483647 ==> Clamp(v) == v
  {
  }

  lemma ReadMinus(body: string)
    ensures ReadInt(['-'] + body) == ReadUnsigned(body, true)
  {
    assert (['-'] + body)[1..] == body;
  }

  lemma ReadPlain(body: string)
    requires body != [] && IsDigit(body[0])
    ensures ReadInt(body) == ReadUnsigned(body, false)
  {
  }

  lemma {:induction false} FindIs(s: string, c: char, i: nat)
    requires i < |s| && s[i] == c && forall k :: 0 <= k < i ==> s[k] != c
    ensures FindChar(s, c) == Some(i)
  {
    if i > 0 {
      FindIs(s[1..], c, i - 1);
    }
  }

  // A text in which p's first character does not occur, or only where p does not continue.
  lemma {:induction false} DoesNotOccur(s: string, p: string)
    requires |p| > 1
    requires forall k :: 0 <= k < |s| && s[k] == p[0] ==> k + 1 < |s| ==> s[k + 1] != p[1]
    ensures !Occurs(s, p)
  {
    if |p| <= |s| {
      assert s[0] == p[0] ==> s[..|p|][1] != p[1];
      assert s[..|p|][0] == s[0];
      DoesNotOccur(s[1..], p);
    }
  }

  lemma NamesAreKnown(kind: TransactionType)
    requires kind.SUM? || kind.SUBSTRACT? || kind.MULTIPLY?
    ensures TypeNamed(Name(kind) + [',']) == kind
  {
    var s := Name(kind) + [','];
    if kind.SUM? {
      assert s[..3] == "sum";
    } else if kind.SUBSTRACT? {
      assert s == "subs,";
      assert s[2] == 'b' && s[4] == ',' && s[1] == 'u';
      assert s[..4] == "subs";
      SubsIsNotSum();
    } else {
      assert s == "mult,";
      DoesNotOccur(s, "sum");
      DoesNotOccur(s, "subs");
      assert s[..4] == "mult";
    }
  }

  lemma SubsIsNotSum()
    ensures !Occurs("subs,", "sum")
  {
    var s := "subs,";
    assert s[..3][2] == 'b' && "sum"[2] == 'm';
    DoesNotOccur(s[1..], "sum");
  }

  // Where the parts of a written write are found.
  lemma WriteIsFound(name: string, number: string, end: string)
    requires forall k :: 0 <= k < |name| ==> IsLetter(name[k])
    requires forall k :: 0 <= k < |number| ==> number[k] == '-' || IsDigit(number[k])
    requires forall k :: 0 <= k < |end| ==> end[k] == ','
    ensures var s := ['w', '('] + name + [','] + number + [')'] + end;
      IsWord(s) && 'r' !in s && 'w' in s && NamePart(s) == name + [','] && NumberPart(s) == number + [')'] &&
      '(' in s && ',' in s && ')' in s
  {
    var s := ['w', '('] + name + [','] + number + [')'] + end;
    var mid := 2 + |name|;
    var finish := mid + 1 + |number|;
    assert s[0] == 'w' && s[1] == '(' && s[mid] == ',' && s[finish] == ')';
    assert s[2..mid + 1] == name + [','];
    assert s[mid + 1..finish + 1] == number + [')'];
    forall k | 0 <= k < |s| ensures !IsSpace(s[k]) && s[k] != 'r' && (k < mid ==> s[k] != ',') && (k < finish ==> s[k] != ')') {
      if 2 <= k < mid {
        assert s[k] == name[k - 2];
      } else if mid < k < finish {
        assert s[k] == number[k - mid - 1];
      }
    }
    FindIs(s, '(', 1);
    FindIs(s, ',', mid);
    FindIs(s, ')', finish);
  }

  predicate IsLetter(c: char) {
    'a' <= c <= 'z' && c != 'r'
  }

  lemma DecimalIsPlain(v: int)
    ensures forall k :: 0 <= k < |Decimal(v)| ==> Decimal(v)[k] == '-' || IsDigit(Decimal(v)[k])
  {
    var n: nat := if v < 0 then -v else v;
    var d := Digits(n);
    forall k | 0 <= k < |Decimal(v)| ensures Decimal(v)[k] == '-' || IsDigit(Decimal(v)[k]) {
      if v < 0 && k > 0 {
        assert Decimal(v)[k] == d[k - 1];
      } else if v >= 0 {
        assert Decimal(v)[k] == d[k];
      }
    }
  }

  lemma WriteRoundTrip(kind: TransactionType, v: int, comma: bool)
    requires kind.SUM? || kind.SUBSTRACT? || kind.MULTIPLY?
    ensures ParseTransaction(Render(Write(kind, v, comma))) == TransactionData(kind, Clamp(v))
    ensures IsWord(Render(Write(kind, v, comma)))
  {
    DecimalIsPlain(v);
    WriteIsFound(Name(kind), Decimal(v), Comma(comma));
    NamesAreKnown(kind);
    ReadDecimal(v, [')']);
  }

  lemma ReadRoundTrip(v: int, comma: bool)
    ensures ParseTransaction(Render(Read(v, comma))) == TransactionData(READ, 0)
    ensures IsWord(Render(Read(v, comma)))
  {
    DecimalIsPlain(v);
    ReadIsWord(Decimal(v), Comma(comma));
    AnyRIsARead(Render(Read(v, comma)));
  }

  lemma ReadIsWord(number: string, end: string)
    requires forall k :: 0 <= k < |number| ==> number[k] == '-' || IsDigit(number[k])
    requires forall k :: 0 <= k < |end| ==> end[k] == ','
    ensures var s := ['r', '('] + number + [')'] + end; IsWord(s) && 'r' in s
  {
    var s := ['r', '('] + number + [')'] + end;
    assert s[0] == 'r';
    forall k | 0 <= k < |s| ensures !IsSpace(s[k]) {
      if 2 <= k < 2 + |number| {
        assert s[k] == number[k - 2];
      }
    }
  }

  // Every word with an r in it, even "w(sum,5r)" or "error", is a read, and its value is 0:
  // the text handed to the number reader begins with the bracket.
  lemma AnyRIsARead(w: string)
    requires 'r' in w
    ensures ParseTransaction(w) == TransactionData(READ, 0)
  {
    var start, finish := FindChar(w, '('), FindChar(w, ')');
    if start.Some? && finish.Some? {
      var s := Substr(w, start.value, finish.value as int - start.value);
      assert s != [] ==> s[0] == '(' && DigitRun(s) == 0;
    }
  }

  // A word is left out exactly when it has no r and lacks a w, a bracket or a comma, or its
  // first bracket and comma enclose no operation's name.
  lemma DroppedExactlyWhen(w: string)
    ensures ParseTransaction(w).kind.UNKOWN? <==> Dropped(w)
  {
  }

  lemma HeaderIsWord(number: string, end: string)
    requires forall k :: 0 <= k < |number| ==> number[k] == '-' || IsDigit(number[k])
    requires end == [] || end == [',']
    ensures var s := ['b'] + number + end;
      IsWord(s) && s[0] == 'b' && s[1..] == number + end && forall k :: 0 <= k < 1 + |number| ==> s[k] != ','
  {
    var s := ['b'] + number + end;
    forall k | 0 <= k < |s| ensures !IsSpace(s[k]) && (k < 1 + |number| ==> s[k] != ',') {
      if 1 <= k < 1 + |number| {
        assert s[k] == number[k - 1];
      }
    }
  }

  lemma HeaderIsFound(number: string, end: string)
    requires forall k :: 0 <= k < |number| ==> number[k] == '-' || IsDigit(number[k])
    requires end == [] || end == [',']
    ensures var s := ['b'] + number + end;
      IsWord(s) && HeaderText(s) == number + end
  {
    var s := ['b'] + number + end;
    HeaderIsWord(number, end);
    FindIs(s, 'b', 0);
    if end == [] {
      assert FindChar(s, ',').None?;
    } else {
      FindIs(s, ',', 1 + |number|);
    }
    HeaderCut(s, 1 + |number|);
  }

  // substr counts from behind the "b", so it may reach one past the comma, and does.
  lemma HeaderCut(s: string, n: nat)
    requires FindChar(s, 'b') == Some(0) && n <= |s| <= n + 1
    requires FindChar(s, ',') == if |s| == n then None else Some(n)
    ensures HeaderText(s) == s[1..]
  {
  }

  lemma HeaderIsRead(layer: Option<int>, comma: bool)
    ensures IsWord(RenderHeader(layer, comma))
    ensures layer.Some? ==>
      HeaderNumber(RenderHeader(layer, comma)) == IntRead(INT_MIN <= layer.value <= INT_MAX, Clamp(layer.value))
    ensures layer.None? ==> !HeaderNumber(RenderHeader(layer, comma)).ok
  {
    if layer.Some? {
      DecimalIsPlain(layer.value);
      HeaderIsFound(Decimal(layer.value), Comma(comma));
      ReadDecimal(layer.value, Comma(comma));
    } else {
      HeaderIsFound([], Comma(comma));
      assert [] + Comma(comma) == Comma(comma);
    }
  }

  lemma HeaderRoundTrip(layer: Option<int>, comma: bool)
    ensures IsWord(RenderHeader(layer, comma))
    ensures ParseLayer(RenderHeader(layer, comma)) ==
      if layer.Some? && 0 < layer.value < 3 then layer.value else 0
    ensures IsReadOnly(RenderHeader(layer, comma)) <==> layer.Some? && 0 <= layer.value < 3
  {
    HeaderIsRead(layer, comma);
  }

  lemma {:induction false} SkipGap(gap: string, rest: string)
    requires IsGap(gap)
    ensures SkipSpace(gap + rest) == SkipSpace(rest)
  {
    if gap == [] {
      assert gap + rest == rest;
    } else {
      assert (gap + rest)[1..] == gap[1..] + rest;
      SkipGap(gap[1..], rest);
    }
  }

  lemma {:induction false} WordEnds(w: string, rest: string)
    requires forall k :: 0 <= k < |w| ==> !IsSpace(w[k])
    requires rest != [] ==> IsSpace(rest[0])
    ensures WordLength(w + rest) == |w|
  {
    if w == [] {
      assert w + rest == rest;
    } else {
      assert (w + rest)[1..] == w[1..] + rest;
      WordEnds(w[1..], rest);
    }
  }

  lemma TokensSkipGap(gap: string, rest: string)
    requires IsGap(gap)
    ensures Tokens(gap + rest) == Tokens(rest)
  {
    SkipGap(gap, rest);
  }

  // Splitting at white space undoes laying out: no matter what the gaps are.
  lemma {:induction false} TokensOfLayout(words: seq<string>, gaps: seq<string>)
    requires |words| == |gaps| && GapsOk(gaps)
    requires forall k :: 0 <= k < |words| ==> IsWord(words[k])
    ensures Tokens(Layout(words, gaps)) == words
  {
    if words == [] {
    } else {
      var w, after := words[0], Layout(words[1..], gaps[1..]);
      assert IsWord(w);
      var text := w + (gaps[0] + after);
      assert SkipSpace(text) == text;
      assert gaps[0] == [] ==> |words| == 1 && after == [];
      WordEnds(w, gaps[0] + after);
      assert text[..|w|] == w && text[|w|..] == gaps[0] + after;
      TokensSkipGap(gaps[0], after);
      assert forall k :: 0 <= k < |words| - 1 ==> words[1..][k] == words[k + 1] && gaps[1..][k] == gaps[k + 1];
      TokensOfLayout(words[1..], gaps[1..]);
    }
  }

  lemma ItemRoundTrip(item: Item)
    requires ItemOk(item)
    ensures IsWord(Render(item))
    ensures Asked(item) == if ParseTransaction(Render(item)).kind.UNKOWN? then [] else [ParseTransaction(Render(item))]
  {
    match item {
      case Write(kind, v, comma) => WriteRoundTrip(kind, v, comma);
      case Read(v, comma) => ReadRoundTrip(v, comma);
      case Junk(word) => DroppedExactlyWhen(word);
    }
  }

  lemma {:induction false} ItemsRoundTrip(items: seq<Item>)
    requires forall k :: 0 <= k < |items| ==> ItemOk(items[k])
    ensures ParseAll(RenderAll(items)) == Meaning(items)
    ensures forall k :: 0 <= k < |items| ==> IsWord(RenderAll(items)[k])
  {
    if items == [] {
    } else {
      var item := items[0];
      ItemRoundTrip(item);
      assert forall k :: 0 <= k < |items| - 1 ==> items[1..][k] == items[k + 1];
      ItemsRoundTrip(items[1..]);
      var words := RenderAll(items);
      assert words[0] == Render(item) && words[1..] == RenderAll(items[1..]);
      assert forall k :: 0 < k < |items| ==> words[k] == words[1..][k - 1];
    }
  }

  // A script in any layout, with malformed words anywhere in it, reads back as its layer, its
  // read-only mark and its entries in order.
  lemma ScriptRoundTrip(layer: Option<int>, comma: bool, items: seq<Item>, lead: string, gaps: seq<string>)
    requires forall k :: 0 <= k < |items| ==> ItemOk(items[k])
    requires IsGap(lead) && |gaps| == |items| + 1 && GapsOk(gaps)
    ensures ParseScript(lead + Layout([RenderHeader(layer, comma)] + RenderAll(items), gaps)) ==
      ScriptFile(
        if layer.Some? && 0 < layer.value < 3 then layer.value else 0,
        layer.Some? && 0 <= layer.value < 3,
        Meaning(items))
  {
    var words := [RenderHeader(layer, comma)] + RenderAll(items);
    HeaderRoundTrip(layer, comma);
    ItemsRoundTrip(items);
    forall k | 0 <= k < |words| ensures IsWord(words[k]) {
      if k > 0 {
        assert words[k] == RenderAll(items)[k - 1];
      }
    }
    TokensSkipGap(lead, Layout(words, gaps));
    TokensOfLayout(words, gaps);
    assert words[1..] == RenderAll(items);
  }

  // With 32-bit values the writes come back unchanged; one value outside and they do not.
  lemma {:induction false} ValuesSurviveExactlyWhenTheyFit(items: seq<Item>)
    requires forall k :: 0 <= k < |items| ==> items[k].Write?
    ensures |Meaning(items)| == |items|
    ensures (forall k :: 0 <= k < |items| ==> Meaning(items)[k] == TransactionData(items[k].kind, items[k].value)) <==>
      (forall k :: 0 <= k < |items| ==> INT_MIN <= items[k].value <= INT_MAX)
  {
    if items == [] {
    } else {
      var rest := items[1..];
      assert forall k :: 0 <= k < |rest| ==> rest[k] == items[k + 1];
      ValuesSurviveExactlyWhenTheyFit(rest);
      var m := Meaning(items);
      assert m[0] == TransactionData(items[0].kind, Clamp(items[0].value)) && m[1..] == Meaning(rest);
      assert forall k :: 0 < k < |items| ==> m[k] == Meaning(rest)[k - 1] && items[k] == rest[k - 1];
      assert forall k :: 0 <= k < |rest| ==> Meaning(rest)[k] == m[k + 1];
    }
  }

  // ------------------------------------------------- what a script can contain

  lemma KindOfWord(w: string)
    ensures var t := ParseTransaction(w); t.kind.UNKOWN? || t.kind.READ? || IsWrite(t)
    ensures ParseTransaction(w).kind.READ? <==> 'r' in w
  {
  }

  // Whatever the text, only reads and the three kinds of write come out.
  lemma {:induction false} OnlyReadsAndWrites(words: seq<string>)
    ensures forall t :: t in ParseAll(words) ==> t.kind.READ? || IsWrite(t)
  {
    if words == [] {
    } else {
      OnlyReadsAndWrites(words[1..]);
      KindOfWord(words[0]);
      var first := ParseTransaction(words[0]);
      assert ParseAll(words) == (if first.kind.UNKOWN? then [] else [first]) + ParseAll(words[1..]);
    }
  }

  // A word that puts no write into the script.
  predicate Harmless(w: string) {
    'r' in w || Dropped(w)
  }

  lemma HarmlessExactlyWhen(w: string)
    ensures Harmless(w) <==> !IsWrite(ParseTransaction(w))
  {
    DroppedExactlyWhen(w);
    KindOfWord(w);
    NoWriteExactlyWhen(ParseTransaction(w));
  }

  lemma NoWriteExactlyWhen(t: TransactionData)
    requires t.kind.UNKOWN? || t.kind.READ? || IsWrite(t)
    ensures !IsWrite(t) <==> t.kind.READ? || t.kind.UNKOWN?
  {
  }

  lemma {:induction false} OnlyReadsExactlyWhen(words: seq<string>)
    ensures (forall t :: t in ParseAll(words) ==> t.kind.READ?) <==> (forall w :: w in words ==> Harmless(w))
  {
    if words == [] {
    } else {
      var w, rest := words[0], words[1..];
      var t := ParseTransaction(w);
      var first := if t.kind.UNKOWN? then [] else [t];
      OnlyReadsExactlyWhen(rest);
      OnlyReadsAndWrites(words);
      HarmlessExactlyWhen(w);
      assert forall v :: v in words <==> v == w || v in rest;
      assert forall u :: u in ParseAll(words) <==> u in first || u in ParseAll(rest);
      assert t in first <==> !t.kind.UNKOWN?;
    }
  }

  // The words of a script after its header.
  function Entries(text: string): seq<string> {
    if Tokens(text) == [] then [] else Tokens(text)[1..]
  }

  predicate OnlyReadsIn(file: ScriptFile) {
    forall t :: t in file.transactions ==> t.kind.READ?
  }

  // The reader takes a script's mark from its header alone and never compares it with the
  // entries. A script contains only reads exactly when every word after its header has an r
  // or is left out; so a mark is kept exactly when that holds or there is no mark.
  lemma MarkIsKeptExactlyWhen(text: string)
    ensures OnlyReadsIn(ParseScript(text)) <==> (forall w :: w in Entries(text) ==> Harmless(w))
    ensures (ParseScript(text).readOnly ==> OnlyReadsIn(ParseScript(text))) <==>
      (Tokens(text) != [] && IsReadOnly(Tokens(text)[0]) ==> forall w :: w in Entries(text) ==> Harmless(w))
  {
    OnlyReadsExactlyWhen(Entries(text));
  }

  // A marked script that keeps a write: "b0, w(sum,1)".
  lemma MarkDoesNotFilterWrites()
    ensures exists text :: ParseScript(text).readOnly && exists t :: t in ParseScript(text).transactions && IsWrite(t)
  {
    var items := [Write(SUM, 1, false)];
    var words := [RenderHeader(Some(0), true)] + RenderAll(items);
    ScriptRoundTrip(Some(0), true, items, [], [[' '], []]);
    var text := [] + Layout(words, [[' '], []]);
    var t := TransactionData(SUM, 1);
    assert Meaning(items) == [t];
    assert t in ParseScript(text).transactions;
  }

  // ------------------------------------------------------ literal scripts

  // How the entries of a script are spelt.
  lemma Spelling(v: int)
    ensures Render(Write(SUM, v, false)) == "w(sum," + Decimal(v) + ")"
    ensures Render(Write(SUBSTRACT, v, false)) == "w(subs," + Decimal(v) + ")"
    ensures Render(Write(MULTIPLY, v, false)) == "w(mult," + Decimal(v) + ")"
    ensures Render(Read(v, false)) == "r(" + Decimal(v) + ")"
    ensures forall kind :: Render(Write(kind, v, true)) == Render(Write(kind, v, false)) + ","
    ensures Render(Read(v, true)) == Render(Read(v, false)) + ","
  {
    assert "w(sum," == ['w', '('] + "sum" + [','] && "w(subs," == ['w', '('] + "subs" + [','];
    assert "w(mult," == ['w', '('] + "mult" + [','] && "r(" == ['r', '('];
    assert ")" == [')'] && "," == [','];
  }

  predicate StandsAt(s: string, p: string, k: nat) {
    k + |p| <= |s| && s[k..k + |p|] == p
  }

  // find of a string: p stands somewhere in s.
  lemma {:induction false} OccursExactlyWhen(s: string, p: string)
    ensures Occurs(s, p) <==> exists k: nat :: StandsAt(s, p, k)
  {
    if |p| <= |s| {
      assert s[..|p|] == s[0..0 + |p|];
      if p == s[..|p|] {
        assert StandsAt(s, p, 0);
      } else {
        assert |p| > 0 && s[0..0 + |p|] == s[..|p|] && !StandsAt(s, p, 0);
        var rest := s[1..];
        OccursExactlyWhen(rest, p);
        forall k: nat ensures StandsAt(rest, p, k) <==> StandsAt(s, p, k + 1) {
          if k + |p| <= |rest| {
            assert rest[k..k + |p|] == s[k + 1..k + 1 + |p|];
          }
        }
        if k: nat :| StandsAt(s, p, k) {
          assert k > 0;
          assert StandsAt(rest, p, k - 1);
        }
      }
    }
  }

  // The type of an entry, by what its name contains; a "sum" goes before the others.
  lemma TypeByName(name: string)
    ensures TypeNamed(name).SUM? <==> exists k: nat :: StandsAt(name, "sum", k)
    ensures TypeNamed(name).SUBSTRACT? <==>
      !TypeNamed(name).SUM? && exists k: nat :: StandsAt(name, "subs", k)
    ensures TypeNamed(name).MULTIPLY? <==>
      !TypeNamed(name).SUM? && !TypeNamed(name).SUBSTRACT? && exists k: nat :: StandsAt(name, "mult", k)
  {
    OccursExactlyWhen(name, "sum");
    OccursExactlyWhen(name, "subs");
    OccursExactlyWhen(name, "mult");
  }

  // A plus sign changes nothing.
  lemma ReadPlus(body: string)
    requires body != [] && IsDigit(body[0])
    ensures ReadInt(['+'] + body) == ReadInt(body)
  {
    assert (['+'] + body)[1..] == body;
  }

  // A header without a "b" is read from its start.
  lemma HeaderWithoutB(layer: int, comma: bool)
    ensures HeaderNumber(Decimal(layer) + Comma(comma)) ==
      IntRead(-2147483648 <= layer <= 2147483647, Clamp(layer))
  {
    var s, end := Decimal(layer) + Comma(comma), Comma(comma);
    DecimalIsPlain(layer);
    forall k | 0 <= k < |s| ensures s[k] != 'b' && (k < |Decimal(layer)| ==> s[k] != ',') {
      if k < |Decimal(layer)| {
        assert s[k] == Decimal(layer)[k];
      }
    }
    assert FindChar(s, 'b').None?;
    if comma {
      FindIs(s, ',', |Decimal(layer)|);
      assert HeaderText(s) == s[..|Decimal(layer)|] == Decimal(layer) + [];
      ReadDecimal(layer, []);
    } else {
      assert FindChar(s, ',').None?;
      assert HeaderText(s) == s[0..] == s;
      ReadDecimal(layer, end);
    }
  }

  // A script of nothing but white space.
  lemma EmptyScript(text: string)
    requires IsGap(text)
    ensures ParseScript(text) == ScriptFile(0, false, []) && ParseLayer([]) == 0 && !IsReadOnly([])
  {
    TokensSkipGap(text, []);
    assert text + [] == text;
  }

  // How numbers are read: from the left, in base ten.
  lemma DecimalDigits(digits: string, d: nat)
    requires d < 10 && forall k :: 0 <= k < |digits| ==> '0' <= digits[k] <= '9'
    ensures forall k :: 0 <= k < |digits| ==> IsDigit(digits[k])
    ensures Value([]) == 0 && IsDigit("0123456789"[d]) && Value(digits + ["0123456789"[d]]) == 10 * Value(digits) + d
  {
    var c := "0123456789"[d];
    assert (digits + [c])[..|digits|] == digits && (digits + [c])[|digits|] == c;
  }

  lemma TwoAndTwelve()
    ensures Decimal(2) == "2" && Decimal(12) == "12" && Decimal(20) == "20" && Decimal(-7) == "-7"
  {
    assert Digits(2) == [] + ['2'] && Digits(1) == [] + ['1'];
    assert Digits(12) == "1" + ['2'] && Digits(20) == "2" + ['0'];
    assert Digits(7) == [] + ['7'] && Decimal(-7) == ['-'] + "7";
  }

  // The script of ClientTransactions/A2_Transactions.txt.
  lemma ScriptA2()
    ensures ParseScript("b, r(20), w(mult,2), w(subs,12)") ==
      ScriptFile(0, false, [TransactionData(READ, 0), TransactionData(MULTIPLY, 2), TransactionData(SUBSTRACT, 12)])
  {
    var items := [Read(20, true), Write(MULTIPLY, 2, true), Write(SUBSTRACT, 12, false)];
    var gaps: seq<string> := [" ", " ", " ", ""];
    ScriptRoundTrip(None, true, items, [], gaps);
    ItemsOfA2();
    WordsOfA2();
    LayoutOfA2();
    assert ["b,"] + ["r(20),", "w(mult,2),", "w(subs,12)"] == ["b,", "r(20),", "w(mult,2),", "w(subs,12)"];
    assert [] + Layout(["b,", "r(20),", "w(mult,2),", "w(subs,12)"], gaps) == "b, r(20), w(mult,2), w(subs,12)";
  }

  lemma WordsOfA2()
    ensures RenderHeader(None, true) == "b," && Render(Read(20, true)) == "r(20),"
    ensures Render(Write(MULTIPLY, 2, true)) == "w(mult,2)," && Render(Write(SUBSTRACT, 12, false)) == "w(subs,12)"
  {
    TwoAndTwelve();
    Spelling(20);
    Spelling(2);
    Spelling(12);
  }

  lemma ItemsOfA2()
    ensures var items := [Read(20, true), Write(MULTIPLY, 2, true), Write(SUBSTRACT, 12, false)];
      && RenderAll(items) == ["r(20),", "w(mult,2),", "w(subs,12)"]
      && Meaning(items) == [TransactionData(READ, 0), TransactionData(MULTIPLY, 2), TransactionData(SUBSTRACT, 12)]
  {
    var items := [Read(20, true), Write(MULTIPLY, 2, true), Write(SUBSTRACT, 12, false)];
    WordsOfA2();
    assert items[1..] == [items[1], items[2]] && items[1..][1..] == [items[2]] && items[1..][1..][1..] == [];
  }

  lemma LayoutCons(w: string, g: string, words: seq<string>, gaps: seq<string>)
    requires |words| == |gaps|
    ensures Layout([w] + words, [g] + gaps) == w + (g + Layout(words, gaps))
  {
    assert ([w] + words)[1..] == words && ([g] + gaps)[1..] == gaps;
  }

  lemma LayoutOne(w: string)
    ensures Layout([w], [""]) == w
  {
    LayoutCons(w, "", [], []);
    assert [w] + [] == [w] && [""] + [] == [""] && w + ("" + []) == w;
  }

  lemma LayoutFour(a: string, b: string, c: string, d: string)
    ensures Layout([a, b, c, d], [" ", " ", " ", ""]) == a + (" " + (b + (" " + (c + (" " + d)))))
  {
    LayoutOne(d);
    LayoutCons(c, " ", [d], [""]);
    assert [c] + [d] == [c, d] && [" "] + [""] == [" ", ""];
    LayoutCons(b, " ", [c, d], [" ", ""]);
    assert [b] + [c, d] == [b, c, d] && [" "] + [" ", ""] == [" ", " ", ""];
    LayoutCons(a, " ", [b, c, d], [" ", " ", ""]);
    assert [a] + [b, c, d] == [a, b, c, d] && [" "] + [" ", " ", ""] == [" ", " ", " ", ""];
  }

  lemma LayoutOfA2()
    ensures Layout(["b,", "r(20),", "w(mult,2),", "w(subs,12)"], [" ", " ", " ", ""]) == "b, r(20), w(mult,2), w(subs,12)"
  {
    LayoutFour("b,", "r(20),", "w(mult,2),", "w(subs,12)");
  }
}
