/** The transaction journal: one line of JSON a record, read back by searching for quoted keys. */
module Journal {
  import opened Basics
  import Decimal

  type Int32 = x: int | Fits32(x)

  datatype Txn = Txn(
    id: string, price: Int32, deposit: Int32, change: Int32, quarters: Int32, dispensed: Int32,
    phase: string, reason: string)

  const Blank := Txn("", 0, 0, 0, 0, 0, "", "")

  // ---- Strings

  predicate Starts(s: string, p: string) {
    |p| <= |s| && s[..|p|] == p
  }

  /** What follows the first occurrence of p. */
  function AfterFirst(s: string, p: string): Option<string> {
    if Starts(s, p) then Some(s[|p|..]) else if s == "" then None else AfterFirst(s[1..], p)
  }

  /** The text before the first character that is one of the stops. */
  function UpTo(s: string, stops: set<char>): string {
    if s == "" || s[0] in stops then "" else [s[0]] + UpTo(s[1..], stops)
  }

  predicate Free(s: string, c: char) {
    s == "" || (s[0] != c && Free(s[1..], c))
  }

  lemma {:induction false} FreeConcat(a: string, b: string, c: char)
    ensures Free(a + b, c) <==> Free(a, c) && Free(b, c)
  {
    if a == "" {
      assert a + b == b;
    } else {
      assert (a + b)[1..] == a[1..] + b;
      FreeConcat(a[1..], b, c);
    }
  }

  lemma {:induction false} UpToIsFree(s: string, stops: set<char>, c: char)
    ensures c in stops ==> Free(UpTo(s, stops), c)
    ensures Free(s, c) ==> Free(UpTo(s, stops), c)
  {
    if s != "" && s[0] !in stops {
      UpToIsFree(s[1..], stops, c);
      assert UpTo(s, stops)[1..] == UpTo(s[1..], stops);
    }
  }

  /** Free of all the stops. */
  predicate FreeOf(s: string, stops: set<char>) {
    s == "" || (s[0] !in stops && FreeOf(s[1..], stops))
  }

  lemma {:induction false} UpToStop(a: string, b: string, stops: set<char>)
    requires FreeOf(a, stops) && (b == "" || b[0] in stops)
    ensures UpTo(a + b, stops) == a
  {
    if a == "" {
      assert a + b == b;
    } else {
      assert (a + b)[1..] == a[1..] + b;
      UpToStop(a[1..], b, stops);
      assert [a[0]] + a[1..] == a;
    }
  }

  // ---- Searching for a pattern that starts with a quote

  const Quote: char := '"'

  /** The opening quote, a key without quotes, and what follows it, which starts with a quote. */
  function Pattern(key: string, suffix: string): string {
    [Quote] + (key + suffix)
  }

  /** A quote cannot start inside text that has none. */
  lemma {:induction false} SkipFree(s: string, more: string, p: string)
    requires Free(s, Quote) && p != "" && p[0] == Quote
    ensures AfterFirst(s + more, p) == AfterFirst(more, p)
  {
    if s == "" {
      assert s + more == more;
    } else {
      assert (s + more)[0] == s[0];
      assert (s + more)[1..] == s[1..] + more;
      assert !Starts(s + more, p);
      SkipFree(s[1..], more, p);
    }
  }

  /** Two texts without quotes, each up to a quote or the end, agree only as a whole. */
  lemma {:induction false} SameUpToQuote(seg: string, more: string, key: string, suffix: string)
    requires Free(seg, Quote) && Free(key, Quote)
    requires (more == "" || more[0] == Quote) && suffix != "" && suffix[0] == Quote
    ensures Starts(seg + more, key + suffix) <==> seg == key && Starts(more, suffix)
  {
    if key == "" {
      assert key + suffix == suffix;
      if seg == "" {
        assert seg + more == more;
      } else {
        assert (seg + more)[0] == seg[0];
      }
    } else if seg == "" {
      assert seg + more == more && (key + suffix)[0] == key[0];
      assert more != "" ==> more[0] != key[0];
    } else {
      assert (seg + more)[1..] == seg[1..] + more && (key + suffix)[1..] == key[1..] + suffix;
      SameUpToQuote(seg[1..], more, key[1..], suffix);
      StartsTail(seg + more, key + suffix);
      assert seg == [seg[0]] + seg[1..] && key == [key[0]] + key[1..];
    }
  }

  lemma StartsTail(s: string, p: string)
    requires s != "" && p != ""
    ensures Starts(s, p) <==> s[0] == p[0] && Starts(s[1..], p[1..])
  {
    if |p| <= |s| {
      assert s[..|p|] == [s[0]] + s[1..][..|p| - 1];
      assert p == [p[0]] + p[1..];
    }
  }

  /** At a quote the pattern matches exactly if the text up to the next quote is the key and the
      text from there on is as the pattern goes on; otherwise the search goes on at the next quote. */
  lemma QuoteStep(seg: string, more: string, key: string, suffix: string)
    requires Free(seg, Quote) && Free(key, Quote)
    requires (more == "" || more[0] == Quote) && suffix != "" && suffix[0] == Quote
    ensures AfterFirst([Quote] + (seg + more), Pattern(key, suffix)) ==
            if seg == key && Starts(more, suffix) then Some(more[|suffix|..]) else AfterFirst(more, Pattern(key, suffix))
  {
    var s, p := [Quote] + (seg + more), Pattern(key, suffix);
    assert s[1..] == seg + more && p[1..] == key + suffix;
    StartsTail(s, p);
    SameUpToQuote(seg, more, key, suffix);
    if seg == key && Starts(more, suffix) {
      assert s[|p|..] == more[|suffix|..];
    } else {
      SkipFree(seg, more, p);
    }
  }

  // ---- Lines

  datatype Key = Ts | Id | Price | Deposit | Change | Quarters | Phase | Dispensed | Reason | Host

  function KeyText(k: Key): string {
    match k
    case Ts => "ts"
    case Id => "id"
    case Price => "price"
    case Deposit => "deposit"
    case Change => "change"
    case Quarters => "quarters"
    case Phase => "phase"
    case Dispensed => "dispensed"
    case Reason => "reason"
    case Host => "host"
  }

  lemma KeyTextInjective(a: Key, b: Key)
    requires KeyText(a) == KeyText(b)
    ensures a == b
  {
  }

  /** A key contains no quote and does not look like a separator. */
  lemma KeyTextPlain(k: Key)
    ensures Plain(KeyText(k))
  {
    var s := KeyText(k);
    LettersFree(s);
  }

  lemma {:induction false} LettersFree(s: string)
    requires forall i :: 0 <= i < |s| ==> 'a' <= s[i] <= 'z'
    ensures Free(s, Quote)
  {
    if s != "" {
      LettersFree(s[1..]);
    }
  }

  datatype Value = Text(text: string) | Number(number: Int32)

  /** The fields of a line, in order. */
  datatype Fields = End | Field(key: Key, value: Value, rest: Fields)

  /** A value as it stands behind its key's closing quote, followed by more text. */
  function ValueText(v: Value, more: string): string {
    match v
    case Text(s) => ":" + ([Quote] + (s + ([Quote] + more)))
    case Number(n) => ":" + Decimal.Render(n) + more
  }

  /** Fields behind the opening brace. */
  function Body(fs: Fields): string {
    match fs
    case End => ""
    case Field(k, v, rest) => [Quote] + (KeyText(k) + ([Quote] + ValueText(v, Separator(rest) + Body(rest))))
  }

  function Separator(rest: Fields): string {
    if rest.End? then "}" else ","
  }

  function FieldsOf(t: Txn, ts: string, host: string): Fields {
    Field(Ts, Text(ts), Field(Id, Text(t.id), Field(Price, Number(t.price), Field(Deposit, Number(t.deposit),
    Field(Change, Number(t.change), Field(Quarters, Number(t.quarters), Field(Phase, Text(t.phase),
    Field(Dispensed, Number(t.dispensed), Field(Reason, Text(t.reason), Field(Host, Text(host), End))))))))))
  }

  function ToJson(t: Txn, ts: string, host: string): string {
    "{" + Body(FieldsOf(t, ts, host))
  }

  /** A member of the object as text: its name in quotes, a colon and its value. */
  function Member(name: string, value: Value): string {
    "\"" + name + "\":" + Word(value)
  }

  function Word(value: Value): string {
    match value
    case Text(s) => "\"" + s + "\""
    case Number(n) => Decimal.Render(n)
  }

  /** The members with commas between them and the brace at the end. */
  function Joined(members: seq<string>): string {
    if members == [] then ""
    else members[0] + (if |members| == 1 then "}" else ",") + Joined(members[1..])
  }

  lemma Shift(a: string, b: string, c: string)
    ensures a + (b + c) == a + b + c
  {
  }

  lemma ShiftAll(a: string, b: string, c: string, d: string, e: string)
    ensures a + (b + (c + (d + e))) == a + b + c + d + e
  {
    Shift(c, d, e);
    Shift(b, c + d, e);
    Shift(b, c, d);
    Shift(a, b + c + d, e);
    Shift(a, b + c, d);
    Shift(a, b, c);
  }

  lemma ValueIsWord(v: Value, more: string)
    ensures [Quote] + ValueText(v, more) == "\":" + (Word(v) + more)
  {
    var q: string := [Quote];
    match v {
      case Number(n) =>
        assert ValueText(v, more) == ":" + Word(v) + more;
        Shift(":", Word(v), more);
        Shift(q, ":", Word(v) + more);
      case Text(s) =>
        Shift(s, q, more);
        Shift(q, s + q, more);
        Shift(q, s, q);
        Shift(q, ":", Word(v) + more);
    }
  }

  lemma ValueIsMember(name: string, v: Value, more: string)
    ensures [Quote] + (name + ([Quote] + ValueText(v, more))) == Member(name, v) + more
  {
    ValueIsWord(v, more);
    ShiftAll([Quote], name, "\":", Word(v), more);
  }

  lemma FieldIsMember(k: Key, v: Value, rest: Fields, members: seq<string>)
    requires Body(rest) == Joined(members) && (rest.End? <==> members == [])
    ensures Body(Field(k, v, rest)) == Joined([Member(KeyText(k), v)] + members)
  {
    var all := [Member(KeyText(k), v)] + members;
    assert all[1..] == members && all[0] == Member(KeyText(k), v);
    ValueIsMember(KeyText(k), v, Separator(rest) + Body(rest));
    Shift(all[0], Separator(rest), Body(rest));
  }

  /** The members of a record, in the order written. */
  function Members(t: Txn, ts: string, host: string): seq<string> {
    [Member("ts", Text(ts))] + ([Member("id", Text(t.id))] + ([Member("price", Number(t.price))] +
    ([Member("deposit", Number(t.deposit))] + ([Member("change", Number(t.change))] +
    ([Member("quarters", Number(t.quarters))] + ([Member("phase", Text(t.phase))] +
    ([Member("dispensed", Number(t.dispensed))] + ([Member("reason", Text(t.reason))] +
    ([Member("host", Text(host))] + [])))))))))
  }

  /** The line is the JSON object of the record, member by member. */
  lemma LineAsWritten(t: Txn, ts: string, host: string)
    ensures ToJson(t, ts, host) == "{" + Joined(Members(t, ts, host))
  {
    var f10, m10 := Field(Host, Text(host), End), [Member("host", Text(host))] + [];
    FieldIsMember(Host, Text(host), End, []);
    var f9, m9 := Field(Reason, Text(t.reason), f10), [Member("reason", Text(t.reason))] + m10;
    FieldIsMember(Reason, Text(t.reason), f10, m10);
    var f8, m8 := Field(Dispensed, Number(t.dispensed), f9), [Member("dispensed", Number(t.dispensed))] + m9;
    FieldIsMember(Dispensed, Number(t.dispensed), f9, m9);
    var f7, m7 := Field(Phase, Text(t.phase), f8), [Member("phase", Text(t.phase))] + m8;
    FieldIsMember(Phase, Text(t.phase), f8, m8);
    var f6, m6 := Field(Quarters, Number(t.quarters), f7), [Member("quarters", Number(t.quarters))] + m7;
    FieldIsMember(Quarters, Number(t.quarters), f7, m7);
    var f5, m5 := Field(Change, Number(t.change), f6), [Member("change", Number(t.change))] + m6;
    FieldIsMember(Change, Number(t.change), f6, m6);
    var f4, m4 := Field(Deposit, Number(t.deposit), f5), [Member("deposit", Number(t.deposit))] + m5;
    FieldIsMember(Deposit, Number(t.deposit), f5, m5);
    var f3, m3 := Field(Price, Number(t.price), f4), [Member("price", Number(t.price))] + m4;
    FieldIsMember(Price, Number(t.price), f4, m4);
    var f2, m2 := Field(Id, Text(t.id), f3), [Member("id", Text(t.id))] + m3;
    FieldIsMember(Id, Text(t.id), f3, m3);
    FieldIsMember(Ts, Text(ts), f2, m2);
  }

  // ---- Reading a field

  const StrSuffix: string := ['"', ':', '"']
  const IntSuffix: string := ['"', ':']

  function GetStr(line: string, k: Key): Option<string> {
    var found := AfterFirst(line, Pattern(KeyText(k), StrSuffix));
    if found.None? then None else Some(UpTo(found.value, {Quote}))
  }

  /** Some(None) when the conversion throws. */
  function GetInt(line: string, k: Key): Option<Option<Int32>> {
    var found := AfterFirst(line, Pattern(KeyText(k), IntSuffix));
    if found.None? then None else Some(Stoi(UpTo(found.value, {',', '}'})))
  }

  predicate IsDigit(c: char) {
    '0' <= c <= '9'
  }

  predicate IsSpace(c: char) {
    c == ' ' || '\t' <= c <= '\r'
  }

  function SkipSpace(s: string): string {
    if s != "" && IsSpace(s[0]) then SkipSpace(s[1..]) else s
  }

  function LeadingDigits(s: string): (r: string)
    ensures forall i :: 0 <= i < |r| ==> IsDigit(r[i])
  {
    if s != "" && IsDigit(s[0]) then [s[0]] + LeadingDigits(s[1..]) else ""
  }

  function Narrow(x: int): Option<Int32> {
    if Fits32(x) then Some(x) else None
  }

  /** The value of the leading digits, if there are any and it fits. */
  function Digits(s: string, negative: bool): Option<Int32> {
    var digits := LeadingDigits(s);
    if digits == "" then None
    else Narrow(if negative then -(Decimal.ValueOf(digits) as int) else Decimal.ValueOf(digits))
  }

  /** The C++ conversion: spaces, a sign, digits, and anything after them; None when it throws. */
  function Stoi(s: string): Option<Int32> {
    var t := SkipSpace(s);
    if t != "" && (t[0] == '-' || t[0] == '+') then Digits(t[1..], t[0] == '-') else Digits(t, false)
  }

  lemma {:induction false} AllDigits(s: string)
    requires forall i :: 0 <= i < |s| ==> IsDigit(s[i])
    ensures LeadingDigits(s) == s
  {
    if s != "" {
      AllDigits(s[1..]);
    }
  }

  lemma DigitsBack(n: nat, negative: bool)
    ensures Digits(Decimal.DigitsOf(n), negative) == Narrow(if negative then -(n as int) else n)
  {
    AllDigits(Decimal.DigitsOf(n));
    Decimal.ValueOfDigits(n);
  }

  /** Reading back a written integer. */
  lemma StoiRender(n: int)
    ensures Stoi(Decimal.Render(n)) == Narrow(n)
  {
    var s := Decimal.Render(n);
    Decimal.SignShows(n);
    assert SkipSpace(s) == s;
    if n < 0 {
      DigitsBack(-n, true);
    } else {
      DigitsBack(n, false);
    }
  }

  lemma {:induction false} PlainNumber(s: string)
    requires forall i :: 0 <= i < |s| ==> s[i] == '-' || IsDigit(s[i])
    ensures Free(s, Quote) && FreeOf(s, {',', '}'}) && Free(s, '\n')
  {
    if s != "" {
      PlainNumber(s[1..]);
    }
  }

  // ---- Finding a field

  predicate NoQuotes(fs: Fields) {
    fs.End? || ((fs.value.Text? ==> Free(fs.value.text, Quote)) && NoQuotes(fs.rest))
  }

  lemma BodyStartsWithQuote(fs: Fields)
    ensures Body(fs) == "" || Body(fs)[0] == Quote
  {
  }

  /** Past the first field, unless it is the one. */
  lemma SkipField(k: Key, v: Value, rest: Fields, key: Key, suffix: string)
    requires v.Text? ==> Free(v.text, Quote)
    requires suffix == StrSuffix || suffix == IntSuffix
    ensures var more := [Quote] + ValueText(v, Separator(rest) + Body(rest));
            AfterFirst(Body(Field(k, v, rest)), Pattern(KeyText(key), suffix)) ==
            if k == key && Starts(more, suffix) then Some(more[|suffix|..])
            else AfterFirst(Body(rest), Pattern(KeyText(key), suffix))
  {
    KeyTextPlain(k);
    KeyTextPlain(key);
    BodyStartsWithQuote(rest);
    if KeyText(k) == KeyText(key) {
      KeyTextInjective(k, key);
    }
    var more := [Quote] + ValueText(v, Separator(rest) + Body(rest));
    QuoteStep(KeyText(k), more, KeyText(key), suffix);
    match v
    case Text(s) => SkipText(s, Separator(rest), Body(rest), KeyText(key), suffix);
    case Number(n) => SkipNumber(n, Separator(rest), Body(rest), KeyText(key), suffix);
  }

  /** A text to search for: without quotes, and not starting like a separator. */
  predicate Plain(key: string) {
    Free(key, Quote) && key != "" && key[0] != ':' && key[0] != ',' && key[0] != '}'
  }

  /** No key is found inside a text value or at its quotes. */
  lemma SkipText(s: string, sep: string, body: string, key: string, suffix: string)
    requires Free(s, Quote) && (suffix == StrSuffix || suffix == IntSuffix) && Plain(key)
    requires (sep == "," || sep == "}") && (body == "" || body[0] == Quote)
    ensures AfterFirst([Quote] + ValueText(Text(s), sep + body), Pattern(key, suffix)) ==
            AfterFirst(body, Pattern(key, suffix))
  {
    assert Free(":", Quote) && Free(sep, Quote);
    QuoteStep(":", [Quote] + (s + ([Quote] + (sep + body))), key, suffix);
    QuoteStep(s, [Quote] + (sep + body), key, suffix);
    assert ([Quote] + (sep + body))[1] == sep[0] && suffix[1] == ':';
    assert !Starts([Quote] + (sep + body), suffix);
    QuoteStep(sep, body, key, suffix);
  }

  /** No key is found inside a number or at the quote before it. */
  lemma SkipNumber(n: Int32, sep: string, body: string, key: string, suffix: string)
    requires (suffix == StrSuffix || suffix == IntSuffix) && Plain(key)
    requires (sep == "," || sep == "}") && (body == "" || body[0] == Quote)
    ensures AfterFirst([Quote] + ValueText(Number(n), sep + body), Pattern(key, suffix)) ==
            AfterFirst(body, Pattern(key, suffix))
  {
    assert Free(sep, Quote);
    NumberSegment(n, sep);
    NumberText(n, sep, body);
    SkipSegment(":" + Decimal.Render(n) + sep, body, key, suffix);
  }

  lemma NumberText(n: Int32, sep: string, body: string)
    ensures ValueText(Number(n), sep + body) == ":" + Decimal.Render(n) + sep + body
  {
  }

  lemma SkipSegment(seg: string, body: string, key: string, suffix: string)
    requires Free(seg, Quote) && seg != "" && seg[0] == ':' && Plain(key)
    requires (body == "" || body[0] == Quote) && suffix != "" && suffix[0] == Quote
    ensures AfterFirst([Quote] + (seg + body), Pattern(key, suffix)) == AfterFirst(body, Pattern(key, suffix))
  {
    QuoteStep(seg, body, key, suffix);
  }

  lemma NumberSegment(n: Int32, sep: string)
    requires Free(sep, Quote)
    ensures var seg := ":" + Decimal.Render(n) + sep;
            Free(seg, Quote) && seg[0] == ':'
  {
    PlainNumber(Decimal.Render(n));
    assert Free(":", Quote);
    FreeConcat(":", Decimal.Render(n), Quote);
    FreeConcat(":" + Decimal.Render(n), sep, Quote);
  }

  /** The text of the first field with the key that holds text. */
  function LookupStr(fs: Fields, key: Key): Option<string> {
    match fs
    case End => None
    case Field(k, v, rest) => if k == key && v.Text? then Some(v.text) else LookupStr(rest, key)
  }

  function LookupInt(fs: Fields, key: Key): Option<Int32> {
    match fs
    case End => None
    case Field(k, v, rest) => if k == key && v.Number? then Some(v.number) else LookupInt(rest, key)
  }

  /** The key never stands before text. */
  predicate OnlyNumber(fs: Fields, key: Key) {
    fs.End? || ((fs.key == key ==> fs.value.Number?) && OnlyNumber(fs.rest, key))
  }

  lemma AfterTextKey(s: string, more: string)
    ensures var text := [Quote] + ValueText(Text(s), more);
            Starts(text, StrSuffix) && text[3..] == s + ([Quote] + more)
  {
  }

  lemma AfterNumberKey(n: Int32, more: string)
    ensures var text := [Quote] + ValueText(Number(n), more);
            && !Starts(text, StrSuffix) && Starts(text, IntSuffix)
            && text[2..] == Decimal.Render(n) + more
  {
    var text := [Quote] + ValueText(Number(n), more);
    assert text[2] == Decimal.Render(n)[0];
  }

  lemma {:induction false} GetStrFinds(fs: Fields, key: Key)
    requires NoQuotes(fs)
    ensures GetStr(Body(fs), key) == LookupStr(fs, key)
  {
    match fs
    case End =>
    case Field(k, v, rest) =>
      GetStrFinds(rest, key);
      SkipField(k, v, rest, key, StrSuffix);
      var more := Separator(rest) + Body(rest);
      match v {
        case Text(s) =>
          AfterTextKey(s, more);
          FreeIsFreeOf(s);
          UpToStop(s, [Quote] + more, {Quote});
        case Number(n) =>
          AfterNumberKey(n, more);
      }
  }

  lemma {:induction false} FreeIsFreeOf(s: string)
    requires Free(s, Quote)
    ensures FreeOf(s, {Quote})
  {
    if s != "" {
      FreeIsFreeOf(s[1..]);
    }
  }

  lemma {:induction false} GetIntFinds(fs: Fields, key: Key)
    requires NoQuotes(fs) && OnlyNumber(fs, key)
    ensures var found := LookupInt(fs, key);
            GetInt(Body(fs), key) == if found.None? then None else Some(Some(found.value))
  {
    match fs
    case End =>
    case Field(k, v, rest) =>
      GetIntFinds(rest, key);
      SkipField(k, v, rest, key, IntSuffix);
      var more := Separator(rest) + Body(rest);
      match v {
        case Text(s) =>
        case Number(n) =>
          AfterNumberKey(n, more);
          PlainNumber(Decimal.Render(n));
          UpToStop(Decimal.Render(n), more, {',', '}'});
          StoiRender(n);
      }
  }

  // ---- Reading a line

  datatype Loaded = Missing | Threw | Found(txn: Txn)

  /** What a search leaves in a field: the value found, or what was there. */
  function Or<T>(found: Option<T>, was: T): T {
    if found.None? then was else found.value
  }

  /** The record a line gives, starting from a blank one; None when a conversion throws. */
  function ParseLine(line: string): Loaded {
    var price, deposit := GetInt(line, Price), GetInt(line, Deposit);
    var change, quarters, dispensed := GetInt(line, Change), GetInt(line, Quarters), GetInt(line, Dispensed);
    if price == Some(None) || deposit == Some(None) || change == Some(None) || quarters == Some(None) ||
       dispensed == Some(None) then Threw
    else
      Found(Txn(Or(GetStr(line, Id), ""), Number0(price), Number0(deposit), Number0(change), Number0(quarters),
                Number0(dispensed), Or(GetStr(line, Phase), ""), Or(GetStr(line, Reason), "")))
  }

  function Number0(found: Option<Option<Int32>>): Int32 {
    if found.Some? && found.value.Some? then found.value.value else 0
  }

  lemma LookupsOf(t: Txn, ts: string, host: string)
    ensures var fs := FieldsOf(t, ts, host);
            && LookupStr(fs, Id) == Some(t.id) && LookupStr(fs, Phase) == Some(t.phase)
            && LookupStr(fs, Reason) == Some(t.reason)
            && LookupInt(fs, Price) == Some(t.price) && LookupInt(fs, Deposit) == Some(t.deposit)
            && LookupInt(fs, Change) == Some(t.change) && LookupInt(fs, Quarters) == Some(t.quarters)
            && LookupInt(fs, Dispensed) == Some(t.dispensed)
  {
    var f8 := Field(Reason, Text(t.reason), Field(Host, Text(host), End));
    var f7 := Field(Dispensed, Number(t.dispensed), f8);
    var f6 := Field(Phase, Text(t.phase), f7);
    var f5 := Field(Quarters, Number(t.quarters), f6);
    var f4 := Field(Change, Number(t.change), f5);
    var f3 := Field(Deposit, Number(t.deposit), f4);
    var f2 := Field(Price, Number(t.price), f3);
    var f1 := Field(Id, Text(t.id), f2);
    assert LookupStr(f8, Reason) == LookupStr(f6, Reason) == LookupStr(f4, Reason) == LookupStr(f2, Reason);
    assert LookupStr(f6, Phase) == LookupStr(f4, Phase) == LookupStr(f2, Phase);
    assert LookupInt(f7, Dispensed) == LookupInt(f5, Dispensed) == LookupInt(f3, Dispensed) == LookupInt(f1, Dispensed);
    assert LookupInt(f5, Quarters) == LookupInt(f3, Quarters) == LookupInt(f1, Quarters);
    assert LookupInt(f4, Change) == LookupInt(f2, Change) == LookupInt(f1, Change);
    assert LookupInt(f3, Deposit) == LookupInt(f1, Deposit);
    assert LookupInt(f2, Price) == LookupInt(f1, Price);
  }

  /** Past the opening brace. */
  lemma BraceSkipped(t: Txn, ts: string, host: string, k: Key)
    ensures GetStr(ToJson(t, ts, host), k) == GetStr(Body(FieldsOf(t, ts, host)), k)
    ensures GetInt(ToJson(t, ts, host), k) == GetInt(Body(FieldsOf(t, ts, host)), k)
  {
    assert Free("{", Quote);
    SkipFree("{", Body(FieldsOf(t, ts, host)), Pattern(KeyText(k), StrSuffix));
    SkipFree("{", Body(FieldsOf(t, ts, host)), Pattern(KeyText(k), IntSuffix));
  }

  lemma KeysTyped(t: Txn, ts: string, host: string, k: Key)
    requires k in {Price, Deposit, Change, Quarters, Dispensed}
    ensures OnlyNumber(FieldsOf(t, ts, host), k)
  {
    var f8 := Field(Reason, Text(t.reason), Field(Host, Text(host), End));
    var f6 := Field(Phase, Text(t.phase), Field(Dispensed, Number(t.dispensed), f8));
    var f4 := Field(Change, Number(t.change), Field(Quarters, Number(t.quarters), f6));
    var f2 := Field(Price, Number(t.price), Field(Deposit, Number(t.deposit), f4));
    assert OnlyNumber(f8, k);
    assert OnlyNumber(f6, k);
    assert OnlyNumber(f4, k);
    assert OnlyNumber(f2, k);
  }

  lemma QuotesOf(t: Txn, ts: string, host: string)
    requires Free(ts, Quote) && Free(host, Quote) && Free(t.id, Quote) && Free(t.phase, Quote) && Free(t.reason, Quote)
    ensures NoQuotes(FieldsOf(t, ts, host))
  {
    var f8 := Field(Reason, Text(t.reason), Field(Host, Text(host), End));
    var f6 := Field(Phase, Text(t.phase), Field(Dispensed, Number(t.dispensed), f8));
    var f4 := Field(Change, Number(t.change), Field(Quarters, Number(t.quarters), f6));
    var f2 := Field(Price, Number(t.price), Field(Deposit, Number(t.deposit), f4));
    assert NoQuotes(f8);
    assert NoQuotes(f6);
    assert NoQuotes(f4);
    assert NoQuotes(f2);
  }

  lemma StrReadBack(t: Txn, ts: string, host: string, k: Key)
    requires NoQuotes(FieldsOf(t, ts, host))
    ensures GetStr(ToJson(t, ts, host), k) == LookupStr(FieldsOf(t, ts, host), k)
  {
    BraceSkipped(t, ts, host, k);
    GetStrFinds(FieldsOf(t, ts, host), k);
  }

  lemma IntReadBack(t: Txn, ts: string, host: string, k: Key)
    requires NoQuotes(FieldsOf(t, ts, host)) && k in {Price, Deposit, Change, Quarters, Dispensed}
    requires LookupInt(FieldsOf(t, ts, host), k).Some?
    ensures GetInt(ToJson(t, ts, host), k) == Some(Some(LookupInt(FieldsOf(t, ts, host), k).value))
  {
    BraceSkipped(t, ts, host, k);
    KeysTyped(t, ts, host, k);
    GetIntFinds(FieldsOf(t, ts, host), k);
  }

  /** A line without stray quotes gives back the record it was written from. */
  lemma LineRoundTrip(t: Txn, ts: string, host: string)
    requires Free(ts, Quote) && Free(host, Quote) && Free(t.id, Quote) && Free(t.phase, Quote) && Free(t.reason, Quote)
    ensures ParseLine(ToJson(t, ts, host)) == Found(t)
  {
    QuotesOf(t, ts, host);
    LookupsOf(t, ts, host);
    StrReadBack(t, ts, host, Id);
    StrReadBack(t, ts, host, Phase);
    StrReadBack(t, ts, host, Reason);
    IntReadBack(t, ts, host, Price);
    IntReadBack(t, ts, host, Deposit);
    IntReadBack(t, ts, host, Change);
    IntReadBack(t, ts, host, Quarters);
    IntReadBack(t, ts, host, Dispensed);
  }

  // ---- The file

  const Newline: char := '\n'

  /** The last line that is not empty, reading line by line; last is the one so far. */
  function LastLine(file: string, last: string): string
    decreases |file|
  {
    if file == "" then last
    else
      var line := UpTo(file, {Newline});
      UpToShorter(file, {Newline});
      LastLine(if |line| < |file| then file[|line| + 1..] else "", if line != "" then line else last)
  }

  lemma {:induction false} UpToShorter(s: string, stops: set<char>)
    ensures |UpTo(s, stops)| <= |s|
  {
    if s != "" && s[0] !in stops {
      UpToShorter(s[1..], stops);
    }
  }

  function LoadLast(file: string): Loaded {
    var last := LastLine(file, "");
    if last == "" then Missing else ParseLine(last)
  }

  /** A record with the time and host it is written with. */
  datatype Entry = Entry(txn: Txn, ts: string, host: string)

  function Line(e: Entry): string {
    ToJson(e.txn, e.ts, e.host) + [Newline]
  }

  /** What appending records one after the other leaves in the file. */
  function Contents(entries: seq<Entry>): string {
    if entries == [] then "" else Contents(entries[..|entries| - 1]) + Line(entries[|entries| - 1])
  }

  /** The text is empty or ends with a line break. */
  predicate Whole(file: string) {
    file == "" || file[|file| - 1] == Newline
  }

  lemma {:induction false} FirstLine(file: string, more: string)
    requires file != "" && Whole(file)
    ensures |UpTo(file, {Newline})| < |file| && UpTo(file + more, {Newline}) == UpTo(file, {Newline})
    ensures Whole(file[|UpTo(file, {Newline})| + 1..])
  {
    assert (file + more)[0] == file[0] && (file + more)[1..] == file[1..] + more;
    if file[0] != Newline {
      FirstLine(file[1..], more);
      var n := |UpTo(file[1..], {Newline})|;
      assert file[1..][n + 1..] == file[n + 2..];
    }
  }

  lemma {:induction false} FreeOfNewline(s: string)
    requires Free(s, Newline)
    ensures FreeOf(s, {Newline})
  {
    if s != "" {
      FreeOfNewline(s[1..]);
    }
  }

  /** After whole lines, the last line appended is the last line read. */
  lemma {:induction false} LastLineRead(file: string, line: string, last: string)
    requires Whole(file) && line != "" && Free(line, Newline)
    ensures LastLine(file + (line + [Newline]), last) == line
    decreases |file|
  {
    var end := line + [Newline];
    if file == "" {
      assert file + end == end;
      FreeOfNewline(line);
      UpToStop(line, [Newline], {Newline});
      assert end[|line| + 1..] == "";
    } else {
      FirstLine(file, end);
      var n := |UpTo(file, {Newline})|;
      assert (file + end)[n + 1..] == file[n + 1..] + end;
      LastLineRead(file[n + 1..], line, if n > 0 then UpTo(file, {Newline}) else last);
    }
  }

  lemma {:induction false} ContentsWhole(entries: seq<Entry>)
    ensures Whole(Contents(entries))
  {
  }

  predicate NoNewlines(fs: Fields) {
    fs.End? || ((fs.value.Text? ==> Free(fs.value.text, Newline)) && NoNewlines(fs.rest))
  }

  lemma KeyTextOneLine(k: Key)
    ensures Free(KeyText(k), Newline)
  {
    var s := KeyText(k);
    LettersOneLine(s);
  }

  lemma {:induction false} LettersOneLine(s: string)
    requires forall i :: 0 <= i < |s| ==> 'a' <= s[i] <= 'z'
    ensures Free(s, Newline)
  {
    if s != "" {
      LettersOneLine(s[1..]);
    }
  }

  lemma ValueOneLine(v: Value, more: string)
    requires v.Text? ==> Free(v.text, Newline)
    requires Free(more, Newline)
    ensures Free(ValueText(v, more), Newline)
  {
    assert Free(":", Newline) && Free([Quote], Newline);
    match v
    case Text(s) =>
      FreeConcat([Quote], more, Newline);
      FreeConcat(s, [Quote] + more, Newline);
      FreeConcat([Quote], s + ([Quote] + more), Newline);
      FreeConcat(":", [Quote] + (s + ([Quote] + more)), Newline);
    case Number(n) =>
      PlainNumber(Decimal.Render(n));
      FreeConcat(":", Decimal.Render(n), Newline);
      FreeConcat(":" + Decimal.Render(n), more, Newline);
  }

  lemma {:induction false} BodyOneLine(fs: Fields)
    requires NoNewlines(fs)
    ensures Free(Body(fs), Newline)
  {
    match fs
    case End =>
    case Field(k, v, rest) =>
      BodyOneLine(rest);
      assert Free(Separator(rest), Newline) && Free([Quote], Newline);
      FreeConcat(Separator(rest), Body(rest), Newline);
      var value := ValueText(v, Separator(rest) + Body(rest));
      ValueOneLine(v, Separator(rest) + Body(rest));
      FreeConcat([Quote], value, Newline);
      KeyTextOneLine(k);
      FreeConcat(KeyText(k), [Quote] + value, Newline);
      FreeConcat([Quote], KeyText(k) + ([Quote] + value), Newline);
  }

  /** Neither a quote nor a line break. */
  predicate Clean(s: string) {
    Free(s, Quote) && Free(s, Newline)
  }

  predicate CleanTxn(t: Txn) {
    Clean(t.id) && Clean(t.phase) && Clean(t.reason)
  }

  lemma LineOneLine(t: Txn, ts: string, host: string)
    requires CleanTxn(t) && Clean(ts) && Clean(host)
    ensures Free(ToJson(t, ts, host), Newline)
  {
    var f8 := Field(Reason, Text(t.reason), Field(Host, Text(host), End));
    var f6 := Field(Phase, Text(t.phase), Field(Dispensed, Number(t.dispensed), f8));
    var f4 := Field(Change, Number(t.change), Field(Quarters, Number(t.quarters), f6));
    var f2 := Field(Price, Number(t.price), Field(Deposit, Number(t.deposit), f4));
    assert NoNewlines(f8);
    assert NoNewlines(f6);
    assert NoNewlines(f4);
    assert NoNewlines(f2);
    BodyOneLine(FieldsOf(t, ts, host));
    assert Free("{", Newline);
    FreeConcat("{", Body(FieldsOf(t, ts, host)), Newline);
  }

  // ---- What is read never contains a quote or a line break

  lemma {:induction false} AfterFirstFree(s: string, p: string, c: char)
    requires Free(s, c) && AfterFirst(s, p).Some?
    ensures Free(AfterFirst(s, p).value, c)
  {
    if Starts(s, p) {
      assert s == s[..|p|] + s[|p|..];
      FreeConcat(s[..|p|], s[|p|..], c);
    } else {
      AfterFirstFree(s[1..], p, c);
    }
  }

  lemma GetStrClean(line: string, k: Key)
    requires Free(line, Newline)
    ensures Clean(Or(GetStr(line, k), ""))
  {
    var p := Pattern(KeyText(k), StrSuffix);
    if AfterFirst(line, p).Some? {
      AfterFirstFree(line, p, Newline);
      UpToIsFree(AfterFirst(line, p).value, {Quote}, Quote);
      UpToIsFree(AfterFirst(line, p).value, {Quote}, Newline);
    }
  }

  lemma {:induction false} LastLineFree(file: string, last: string)
    requires Free(last, Newline)
    ensures Free(LastLine(file, last), Newline)
    decreases |file|
  {
    if file != "" {
      var line := UpTo(file, {Newline});
      UpToShorter(file, {Newline});
      UpToIsFree(file, {Newline}, Newline);
      LastLineFree(if |line| < |file| then file[|line| + 1..] else "", if line != "" then line else last);
    }
  }

  lemma LoadedIsClean(file: string)
    ensures LoadLast(file).Found? ==> CleanTxn(LoadLast(file).txn)
  {
    var line := LastLine(file, "");
    LastLineFree(file, "");
    GetStrClean(line, Id);
    GetStrClean(line, Phase);
    GetStrClean(line, Reason);
  }

  /** Whatever was appended before, the last record is read back in every field exactly when its
      strings contain no quote and no line break. */
  lemma LastRecordIsReadExactly(entries: seq<Entry>)
    requires entries != [] && Clean(entries[|entries| - 1].ts) && Clean(entries[|entries| - 1].host)
    ensures var t := entries[|entries| - 1].txn;
            LoadLast(Contents(entries)) == Found(t) <==> CleanTxn(t)
  {
    var before, e := entries[..|entries| - 1], entries[|entries| - 1];
    LoadedIsClean(Contents(entries));
    if CleanTxn(e.txn) {
      var line := ToJson(e.txn, e.ts, e.host);
      ContentsWhole(before);
      LineOneLine(e.txn, e.ts, e.host);
      LastLineRead(Contents(before), line, "");
      LineRoundTrip(e.txn, e.ts, e.host);
    }
  }

  /** A record whose reason is a quote is not read back. */
  lemma QuoteInReasonIsLost(entries: seq<Entry>)
    requires entries != [] && Clean(entries[|entries| - 1].ts) && Clean(entries[|entries| - 1].host)
    requires entries[|entries| - 1].txn == Blank.(reason := [Quote])
    ensures LoadLast(Contents(entries)) != Found(Blank.(reason := [Quote]))
  {
    assert !Free([Quote], Quote);
    LastRecordIsReadExactly(entries);
  }

  // ---- The file as an object

  class File {
    var text: string

    constructor ()
      ensures text == ""
    {
      text := "";
    }

    method Append(t: Txn, ts: string, host: string)
      modifies this
      ensures text == old(text) + Line(Entry(t, ts, host))
    {
      var line := ToJson(t, ts, host);
      line := line + [Newline];
      text := text + line;
    }

    method ReadLast() returns (r: Loaded)
      ensures r == LoadLast(text)
    {
      var rest, last := text, "";
      while rest != ""
        invariant LastLine(rest, last) == LastLine(text, "")
        decreases |rest|
      {
        var line := UpTo(rest, {Newline});
        UpToShorter(rest, {Newline});
        rest := if |line| < |rest| then rest[|line| + 1..] else "";
        if line != "" {
          last := line;
        }
      }
      if last == "" {
        return Missing;
      }
      r := ParseLine(last);
    }
  }
}
