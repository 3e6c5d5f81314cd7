/** The wire formats between the service plugin and the agent
    (src/common/translator/Translator.cpp). */
module Translator {
  import opened Decimal
  import opened SupportedTypes

  datatype RequestData = RequestData(client: string, user: string, privilege: string)

  datatype Decoded = Policy(policyType: nat) | TranslateError

  const NO_ERROR := ""
  const ERROR := "ERROR"
  const TIMEOUT := "TIMEOUT"

  // ---------------------------------------------------------------- requests

  function Field(s: string): string {
    ToString(|s|) + " " + s + " "
  }

  function RequestToData(r: RequestData): string {
    Field(r.client) + Field(r.user) + Field(r.privilege)
  }

  /** The parts of a `std::stringstream` that the parser depends on: what is still unread, and
      whether `good()` holds. A stream that is not good yields nothing more. */
  datatype Stream = Stream(rest: string, good: bool)

  /** The characters `isspace` accepts in the "C" locale. */
  predicate IsSpace(c: char) {
    c == ' ' || 9 <= c as int <= 13
  }

  function SkipSpace(s: string): (t: string)
    ensures |t| <= |s|
    ensures t != [] ==> !IsSpace(t[0])
  {
    if s != [] && IsSpace(s[0]) then SkipSpace(s[1..]) else s
  }

  /** `stream >> size`: a stream that is not good, or that runs out while blanks are skipped,
      leaves the variable alone; text that is not a number stores 0. */
  function ExtractSize(st: Stream, size: nat): (Stream, nat) {
    var s := SkipSpace(st.rest);
    if !st.good then (st, size)
    else if s == [] then (Stream([], false), size)
    else
      var n := DigitRun(s);
      (Stream(s[n..], 0 < n < |s|), Value(s[..n]))
  }

  /** `stream.read(buffer, n)` into a buffer already filled with `filler`. */
  function Read(st: Stream, n: nat, filler: char): (r: (Stream, string))
    ensures |r.1| == n
  {
    if !st.good then (st, Fill(n, filler))
    else if n <= |st.rest| then (Stream(st.rest[n..], true), st.rest[..n])
    else (Stream([], false), st.rest + Fill(n - |st.rest|, filler))
  }

  function Fill(n: nat, c: char): (s: string)
    ensures |s| == n
  {
    seq(n, i => c)
  }

  const NUL: char := 0 as char

  /** One turn of the parsing loop: the size, the separator, the contents. */
  function ReadMember(st: Stream, size: nat): (Stream, nat, string) {
    var (st1, n) := ExtractSize(st, size);
    var st2 := Read(st1, 1, NUL).0;
    var (st3, text) := Read(st2, n, NUL);
    (st3, n, text)
  }

  /** What the loop leaves in its variables after `k` turns. */
  function ReadMembers(st: Stream, size: nat, k: nat): (r: (Stream, nat, seq<string>))
    ensures |r.2| == k
  {
    if k == 0 then (st, size, [])
    else
      var (st1, size1, ms) := ReadMembers(st, size, k - 1);
      var (st2, size2, m) := ReadMember(st1, size1);
      (st2, size2, ms + [m])
  }

  function Parsed(data: string, uninitialized: nat): RequestData {
    var ms := ReadMembers(Stream(data, true), uninitialized, 3).2;
    RequestData(ms[0], ms[1], ms[2])
  }

  /** `dataToRequest`. The size variable of the source starts uninitialized; `uninitialized` is
      whatever it holds. */
  method DataToRequest(data: string, uninitialized: nat) returns (r: RequestData)
    ensures r == Parsed(data, uninitialized)
    ensures forall q: RequestData :: RequestToData(q) <= data ==> r == q
  {
    var stream := Stream(data, true);
    var strSize := uninitialized;
    var members: seq<string> := [];
    for i := 0 to 3
      invariant (stream, strSize, members) == ReadMembers(Stream(data, true), uninitialized, i)
    {
      var (extracted, size) := ExtractSize(stream, strSize);
      strSize := size;
      var (separated, separator) := Read(extracted, 1, NUL);
      var (read, buffer) := Read(separated, strSize, NUL);
      stream := read;
      members := members + [buffer];
    }
    r := RequestData(members[0], members[1], members[2]);
    forall q: RequestData | RequestToData(q) <= data
      ensures r == q
    {
      assert data == RequestToData(q) + data[|RequestToData(q)|..];
      RequestRoundTrip(q, data[|RequestToData(q)|..], uninitialized);
    }
  }

  lemma {:induction false} SkipBlanks(blanks: string, s: string)
    requires forall i | 0 <= i < |blanks| :: IsSpace(blanks[i])
    requires s != [] && !IsSpace(s[0])
    ensures SkipSpace(blanks + s) == s
  {
    if blanks == [] {
      assert blanks + s == s;
    } else {
      assert (blanks + s)[1..] == blanks[1..] + s;
      SkipBlanks(blanks[1..], s);
    }
  }

  /** A number ends where the text that follows it starts. */
  lemma ScanDigits(digits: string, t: string)
    requires digits != [] && AllDigits(digits) && (t != [] ==> !IsDigit(t[0]))
    ensures !IsSpace((digits + t)[0]) && DigitRun(digits + t) == |digits|
    ensures (digits + t)[..|digits|] == digits && (digits + t)[|digits|..] == t
  {
    assert IsDigit(digits[0]) && (digits + t)[0] == digits[0];
    DigitRunUnique(digits + t, |digits|);
  }

  lemma ExtractPrinted(n: nat, t: string, size: nat, blank: string)
    requires blank == "" || blank == " "
    requires t != [] && !IsDigit(t[0])
    ensures ExtractSize(Stream(blank + ToString(n) + t, true), size) == (Stream(t, true), n)
  {
    hide SkipSpace, DigitRun, Value, ToString;
    var digits := ToString(n);
    ScanDigits(digits, t);
    SkipBlanks(blank, digits + t);
    assert blank + digits + t == blank + (digits + t);
    ValueOfToString(n);
  }

  lemma ReadPrinted(s: string, t: string)
    ensures Read(Stream(s + t, true), |s|, NUL) == (Stream(t, true), s)
  {
    assert (s + t)[..|s|] == s && (s + t)[|s|..] == t;
  }

  /** After a field is consumed one blank is left, which the next extraction skips. */
  lemma ReadField(s: string, t: string, size: nat, blank: string)
    requires blank == "" || blank == " "
    ensures ReadMember(Stream(blank + Field(s) + t, true), size)
         == (Stream(" " + t, true), |s|, s)
  {
    var tail := " " + (s + (" " + t));
    assert blank + Field(s) + t == blank + ToString(|s|) + tail;
    ExtractPrinted(|s|, tail, size, blank);
    ReadPrinted(" ", s + (" " + t));
    ReadPrinted(s, " " + t);
  }

  lemma ReadNext(st: Stream, size: nat, k: nat, blank: string, s: string, t: string)
    requires blank == "" || blank == " "
    requires ReadMembers(st, size, k).0 == Stream(blank + Field(s) + t, true)
    ensures ReadMembers(st, size, k + 1)
         == (Stream(" " + t, true), |s|, ReadMembers(st, size, k).2 + [s])
  {
    ReadField(s, t, ReadMembers(st, size, k).1, blank);
  }

  lemma ReadOne(a: string, t: string, size: nat)
    ensures ReadMembers(Stream(Field(a) + t, true), size, 1) == (Stream(" " + t, true), |a|, [a])
  {
    assert "" + Field(a) + t == Field(a) + t;
    assert ReadMembers(Stream(Field(a) + t, true), size, 0) == (Stream(Field(a) + t, true), size, []);
    ReadNext(Stream(Field(a) + t, true), size, 0, "", a, t);
    assert [] + [a] == [a];
  }

  lemma ReadTwo(a: string, b: string, t: string, size: nat)
    ensures ReadMembers(Stream(Field(a) + Field(b) + t, true), size, 2)
         == (Stream(" " + t, true), |b|, [a, b])
  {
    assert Field(a) + Field(b) + t == Field(a) + (Field(b) + t);
    assert " " + (Field(b) + t) == " " + Field(b) + t;
    ReadOne(a, Field(b) + t, size);
    hide Field, ReadMembers;
    ReadNext(Stream(Field(a) + Field(b) + t, true), size, 1, " ", b, t);
    assert [a] + [b] == [a, b];
  }

  lemma ReadThree(a: string, b: string, c: string, t: string, size: nat)
    ensures ReadMembers(Stream(Field(a) + Field(b) + Field(c) + t, true), size, 3).2 == [a, b, c]
  {
    var st := Stream(Field(a) + Field(b) + Field(c) + t, true);
    assert st.rest == Field(a) + Field(b) + (Field(c) + t);
    ReadTwo(a, b, Field(c) + t, size);
    assert " " + (Field(c) + t) == " " + Field(c) + t;
    hide Field, ReadMembers;
    ReadNext(st, size, 2, " ", c, t);
  }

  /** Whatever follows an encoding, and whatever the contents (blanks, digits, nothing at all),
      the parser returns the triple that was encoded. */
  lemma RequestRoundTrip(r: RequestData, t: string, uninitialized: nat)
    ensures Parsed(RequestToData(r) + t, uninitialized) == r
  {
    ReadThree(r.client, r.user, r.privilege, t, uninitialized);
  }

  /** No encoding is a prefix of the encoding of a different triple. */
  lemma RequestPrefixFree(a: RequestData, b: RequestData)
    requires RequestToData(a) <= RequestToData(b)
    ensures a == b
  {
    var t := RequestToData(b)[|RequestToData(a)|..];
    assert RequestToData(b) == RequestToData(a) + t == RequestToData(b) + "";
    RequestRoundTrip(a, t, 0);
    RequestRoundTrip(b, "", 0);
  }

  /** Where the contents stand in the encoding: client, user, privilege, each behind its length. */
  lemma RequestLayout(r: RequestData)
    ensures var a, b, c := ToString(|r.client|), ToString(|r.user|), ToString(|r.privilege|);
      var i := |a| + 1;
      var j := i + |r.client| + 1 + |b| + 1;
      var k := j + |r.user| + 1 + |c| + 1;
      var data := RequestToData(r);
      && |data| == k + |r.privilege| + 1
      && data[..|a|] == a && data[i..i + |r.client|] == r.client
      && data[j - 1 - |b|..j - 1] == b && data[j..j + |r.user|] == r.user
      && data[k - 1 - |c|..k - 1] == c && data[k..k + |r.privilege|] == r.privilege
  {
  }

  // ---------------------------------------------------------------- malformed requests

  /** Every read from a stream that is not good leaves the size alone and yields only filler. */
  lemma {:induction false} ReadNothing(st: Stream, size: nat, k: nat)
    requires !st.good
    ensures ReadMembers(st, size, k) == (st, size, seq(k, i => Fill(size, NUL)))
  {
    if k == 0 {
    } else {
      ReadNothing(st, size, k - 1);
      assert seq(k, i => Fill(size, NUL)) == seq(k - 1, i => Fill(size, NUL)) + [Fill(size, NUL)];
    }
  }

  lemma {:induction false} FirstThenRest(st: Stream, size: nat, k: nat)
    ensures var (st1, size1, m) := ReadMember(st, size);
      ReadMembers(st, size, k + 1).2 == [m] + ReadMembers(st1, size1, k).2
      && ReadMembers(st, size, k + 1).0 == ReadMembers(st1, size1, k).0
      && ReadMembers(st, size, k + 1).1 == ReadMembers(st1, size1, k).1
  {
    hide ReadMember;
    if k == 0 {
      assert ReadMembers(st, size, 0) == (st, size, []);
      assert [] + [ReadMember(st, size).2] == [ReadMember(st, size).2] + [];
    } else {
      FirstThenRest(st, size, k - 1);
    }
  }

  /** Data that is blank leaves the uninitialized size in use: each member is that many NULs. Data
      that starts with anything but a number yields three empty members. */
  lemma MalformedRequest(data: string, uninitialized: nat)
    requires SkipSpace(data) == [] || !IsDigit(SkipSpace(data)[0])
    ensures var n := if SkipSpace(data) == [] then uninitialized else 0;
      Parsed(data, uninitialized) == RequestData(Fill(n, NUL), Fill(n, NUL), Fill(n, NUL))
  {
    var st := Stream(data, true);
    var n := if SkipSpace(data) == [] then uninitialized else 0;
    var (st1, size1, m) := ReadMember(st, uninitialized);
    var s := SkipSpace(data);
    if s != [] {
      DigitRunUnique(s, 0);
      assert s[..0] == [];
    }
    assert !st1.good && size1 == n && m == Fill(n, NUL);
    FirstThenRest(st, uninitialized, 2);
    ReadNothing(st1, n, 2);
  }

  // ----------------------------------------------------------------- answers

  function AnswerToData(answer: nat, errMsg: string): string {
    if errMsg == "" then ToString(answer) else errMsg
  }

  const LLONG_MAX := 0x7fff_ffff_ffff_ffff

  datatype Parse = Number(n: int) | NotANumber | OutOfRange

  /** `std::stoll`: blanks, an optional sign, digits; anything after the digits is ignored. */
  function Stoll(data: string): Parse {
    var s := SkipSpace(data);
    var signed := s != [] && (s[0] == '-' || s[0] == '+');
    var digits := if signed then s[1..] else s;
    var run := DigitRun(digits);
    var n: int := Value(digits[..run]);
    if run == 0 then NotANumber
    else if signed && s[0] == '-' then
      if n <= LLONG_MAX + 1 then Number(-n) else OutOfRange
    else
      if n <= LLONG_MAX then Number(n) else OutOfRange
  }

  /** The range check on the parsed number, and the cast that keeps it modulo the width of
      `PolicyType`: it changes negative numbers only. */
  function ToPolicyType(types: PolicyTypes, parse: Parse): Decoded {
    match parse
    case Number(n) => if n > types.max then TranslateError else Policy(n % (types.max + 1))
    case _ => TranslateError
  }

  /** `dataToAnswer`. */
  function DataToAnswer(types: PolicyTypes, data: string): Decoded {
    if data == ERROR || data == TIMEOUT then Policy(types.deny)
    else ToPolicyType(types, Stoll(data))
  }

  lemma StollOfToString(n: nat)
    ensures Stoll(ToString(n)) == if n <= LLONG_MAX then Number(n) else OutOfRange
  {
    var s := ToString(n);
    assert IsDigit(s[0]) && SkipSpace(s) == s;
    DigitRunUnique(s, |s|);
    assert s[..|s|] == s;
    ValueOfToString(n);
  }

  /** What else `std::stoll` accepts: blanks before the number, a sign, and anything that is not a
      digit after it. */
  lemma StollOfText(blanks: string, sign: string, n: nat, tail: string)
    requires forall i | 0 <= i < |blanks| :: IsSpace(blanks[i])
    requires sign == "" || sign == "+" || sign == "-"
    requires tail != [] ==> !IsDigit(tail[0])
    ensures Stoll(blanks + (sign + (ToString(n) + tail)))
         == if sign == "-" then if n <= LLONG_MAX + 1 then Number(0 - n) else OutOfRange
            else if n <= LLONG_MAX then Number(n) else OutOfRange
  {
    hide SkipSpace, DigitRun, Value, ToString;
    var digits := ToString(n) + tail;
    assert IsDigit(ToString(n)[0]);
    ScanDigits(ToString(n), tail);
    SkipBlanks(blanks, sign + digits);
    if sign == "" {
      assert sign + digits == digits;
    } else {
      assert (sign + digits)[0] == sign[0] && (sign + digits)[1..] == digits;
    }
    ValueOfToString(n);
  }

  /** A negative answer is not refused: it comes out as a large policy type. */
  lemma NegativeAnswer(types: PolicyTypes, n: nat)
    requires types.Valid() && 0 < n <= types.max
    ensures DataToAnswer(types, "-" + ToString(n)) == Policy(types.max + 1 - n)
  {
    StollOfText("", "-", n, "");
    assert "" + ("-" + (ToString(n) + "")) == "-" + ToString(n);
    assert ("-" + ToString(n))[0] == '-' && ERROR[0] == 'E' && TIMEOUT[0] == 'T';
    NegativeMod(n, types.max + 1);
  }

  lemma NegativeMod(n: nat, m: nat)
    requires 0 < n < m
    ensures (0 - n) % m == m - n
  {
    assert 0 - n == (0 - 1) * m + (m - n);
  }

  lemma DecimalIsNoErrorWord(n: nat)
    ensures ToString(n) != ERROR && ToString(n) != TIMEOUT && ToString(n) != NO_ERROR
  {
    var s := ToString(n);
    assert IsDigit(s[0]) && ERROR[0] == 'E' && TIMEOUT[0] == 'T';
  }

  lemma SmallMod(n: nat, m: nat)
    requires n < m
    ensures n % m == n
  {
  }

  lemma NonNegativeToPolicyType(types: PolicyTypes, n: nat)
    requires types.Valid()
    ensures ToPolicyType(types, if n <= LLONG_MAX then Number(n) else OutOfRange)
         == if n <= types.max then Policy(n) else TranslateError
  {
    if n <= types.max {
      SmallMod(n, types.max + 1);
    }
  }

  /** Every policy type survives the trip, every larger number is refused, and no decimal text
      is taken for one of the two error words. */
  lemma AnswerRoundTrip(types: PolicyTypes, n: nat)
    requires types.Valid()
    ensures DataToAnswer(types, AnswerToData(n, NO_ERROR))
         == if n <= types.max then Policy(n) else TranslateError
    ensures AnswerToData(n, NO_ERROR) != ERROR && AnswerToData(n, NO_ERROR) != TIMEOUT
  {
    StollOfToString(n);
    DecimalIsNoErrorWord(n);
    NonNegativeToPolicyType(types, n);
  }

  /** The two error words mean a denial, whatever policy type is passed along with them. */
  lemma ErrorRoundTrip(types: PolicyTypes, n: nat)
    ensures DataToAnswer(types, AnswerToData(n, ERROR)) == Policy(types.deny)
    ensures DataToAnswer(types, AnswerToData(n, TIMEOUT)) == Policy(types.deny)
  {
    assert |ERROR| > 0 && |TIMEOUT| > 0;
  }
}
