/** Order and invoice codes: counters, formatting and reading back. */
module Codes {
  import opened Basics
  import opened Model

  // ----- extractInitials -----------------------------------------------------------------------

  /** JavaScript's \s. */
  predicate IsSpace(c: char) {
    '\t' <= c <= '\r' || c == ' ' || c == '\U{00A0}' || c == '\U{1680}' || '\U{2000}' <= c <= '\U{200A}' ||
    c == '\U{2028}' || c == '\U{2029}' || c == '\U{202F}' || c == '\U{205F}' || c == '\U{3000}' || c == '\U{FEFF}'
  }

  predicate IsDigit(c: char) {
    '0' <= c <= '9'
  }

  predicate IsAlnum(c: char) {
    'a' <= c <= 'z' || 'A' <= c <= 'Z' || IsDigit(c)
  }

  predicate IsInitial(c: char) {
    'A' <= c <= 'Z' || IsDigit(c)
  }

  function Plain(c: char): char {
    if c == '\U{0111}' then 'd' else if c == '\U{0110}' then 'D' else c
  }

  function UpperLetter(c: char): char {
    if 'a' <= c <= 'z' then (c as int - 32) as char else c
  }

  /** Combining marks and anything but letters, digits and spaces are dropped. */
  function Cleaned(name: string): (r: string)
    ensures forall i :: 0 <= i < |r| ==> IsAlnum(r[i]) || IsSpace(r[i])
  {
    if |name| == 0 then []
    else
      var c := Plain(name[|name| - 1]);
      Cleaned(name[..|name| - 1]) + if IsAlnum(c) || IsSpace(c) then [c] else []
  }

  /** The first character of every word, in capitals. */
  function WordStarts(s: string): (r: string)
    requires forall i :: 0 <= i < |s| ==> IsAlnum(s[i]) || IsSpace(s[i])
    ensures forall i :: 0 <= i < |r| ==> IsInitial(r[i])
  {
    if |s| == 0 then []
    else
      var n := |s| - 1;
      WordStarts(s[..n]) + if IsAlnum(s[n]) && (n == 0 || IsSpace(s[n - 1])) then [UpperLetter(s[n])] else []
  }

  /** `name` is in Unicode normal form D. */
  function Initials(name: string): (r: string)
    ensures 1 <= |r| <= 6
    ensures forall i :: 0 <= i < |r| ==> IsInitial(r[i])
  {
    var starts := WordStarts(Cleaned(name));
    if |starts| == 0 then "OP" else if |starts| <= 6 then starts else starts[..6]
  }

  // ----- What the initials are -----------------------------------------------------------------

  const SMALL := "abcdefghijklmnopqrstuvwxyz"
  const CAPITAL := "ABCDEFGHIJKLMNOPQRSTUVWXYZ"

  /** b is a, with a small letter turned into its capital. */
  predicate Capitalised(a: char, b: char) {
    if a in SMALL then exists i :: 0 <= i < 26 && a == SMALL[i] && b == CAPITAL[i] else b == a
  }

  /** The maximal runs without a space. */
  function Words(s: string): (r: seq<string>)
    ensures forall k :: 0 <= k < |r| ==> 0 < |r[k]|
    ensures 0 < |s| && !IsSpace(s[|s| - 1]) ==> 0 < |r|
  {
    if |s| == 0 then []
    else
      var n := |s| - 1;
      var front := Words(s[..n]);
      if IsSpace(s[n]) then front
      else if n == 0 || IsSpace(s[n - 1]) then front + [[s[n]]]
      else front[..|front| - 1] + [front[|front| - 1] + [s[n]]]
  }

  function Joined(ws: seq<string>): string {
    if |ws| == 0 then "" else Joined(ws[..|ws| - 1]) + ws[|ws| - 1]
  }

  function WithoutSpaces(s: string): string {
    if |s| == 0 then ""
    else WithoutSpaces(s[..|s| - 1]) + if IsSpace(s[|s| - 1]) then "" else [s[|s| - 1]]
  }

  lemma {:induction false} WordsStep(s: string)
    requires 0 < |s|
    ensures var n := |s| - 1; var front := Words(s[..n]);
      Words(s) ==
      if IsSpace(s[n]) then front
      else if n == 0 || IsSpace(s[n - 1]) then front + [[s[n]]]
      else front[..|front| - 1] + [front[|front| - 1] + [s[n]]]
  {
    hide IsSpace;
  }

  lemma {:induction false} JoinedMore(ws: seq<string>, w: string)
    ensures Joined(ws + [w]) == Joined(ws) + w
  {
    assert (ws + [w])[..|ws|] == ws;
  }

  lemma {:induction false} JoinedLonger(ws: seq<string>, c: char)
    requires 0 < |ws|
    ensures Joined(ws[..|ws| - 1] + [ws[|ws| - 1] + [c]]) == Joined(ws) + [c]
  {
    var front, last := ws[..|ws| - 1], ws[|ws| - 1];
    JoinedMore(front, last + [c]);
    assert Joined(front) + (last + [c]) == (Joined(front) + last) + [c];
  }

  /** The words hold every character but the spaces, in order. */
  lemma {:induction false} WordsCover(s: string)
    ensures Joined(Words(s)) == WithoutSpaces(s)
    decreases |s|
  {
    hide IsSpace, Words;
    if |s| == 0 {
      NoWords();
    } else {
      hide Joined;
      var n := |s| - 1;
      WordsCover(s[..n]);
      WordsStep(s);
      var front := Words(s[..n]);
      if IsSpace(s[n]) {
        assert Words(s) == front;
      } else if n == 0 || IsSpace(s[n - 1]) {
        JoinedMore(front, [s[n]]);
      } else {
        JoinedLonger(front, s[n]);
      }
    }
  }

  lemma {:induction false} NoWords()
    ensures Words("") == []
  {
  }

  lemma {:induction false} WordsHaveNoSpace(s: string)
    ensures forall k :: 0 <= k < |Words(s)| ==> forall i :: 0 <= i < |Words(s)[k]| ==> !IsSpace(Words(s)[k][i])
    decreases |s|
  {
    hide IsSpace, Words;
    if |s| == 0 {
      NoWords();
    } else {
      WordsHaveNoSpace(s[..|s| - 1]);
      WordsStep(s);
    }
  }

  lemma {:induction false} CapitalLetter(c: char)
    requires IsAlnum(c)
    ensures Capitalised(c, UpperLetter(c))
  {
    assert |SMALL| == 26 && |CAPITAL| == 26;
    if 'a' <= c <= 'z' {
      var i := c as int - 'a' as int;
      assert SMALL[i] == c && CAPITAL[i] == UpperLetter(c) by { Alphabet(i); }
    } else {
      forall j | 0 <= j < 26 ensures SMALL[j] != c { Alphabet(j); }
    }
  }

  lemma {:induction false} Alphabet(i: nat)
    requires i < 26
    ensures SMALL[i] as int == 'a' as int + i && CAPITAL[i] as int == 'A' as int + i
  {
  }

  /** One capital for each word, that of its first letter. */
  ghost predicate Heads(ws: seq<string>, r: string) {
    |r| == |ws| && forall k :: 0 <= k < |ws| ==> 0 < |ws[k]| && Capitalised(ws[k][0], r[k])
  }

  lemma {:induction false} HeadsMore(ws: seq<string>, r: string, a: char, b: char)
    requires Heads(ws, r) && Capitalised(a, b)
    ensures Heads(ws + [[a]], r + [b])
  {
    hide Capitalised;
  }

  lemma {:induction false} HeadsLonger(ws: seq<string>, r: string, c: char)
    requires Heads(ws, r) && 0 < |ws|
    ensures Heads(ws[..|ws| - 1] + [ws[|ws| - 1] + [c]], r)
  {
    hide Capitalised;
  }

  lemma {:induction false} StartsAre(s: string)
    requires forall i :: 0 <= i < |s| ==> IsAlnum(s[i]) || IsSpace(s[i])
    ensures Heads(Words(s), WordStarts(s))
    decreases |s|
  {
    hide Capitalised, UpperLetter, Words, IsSpace, IsAlnum, WordStarts, Heads;
    if |s| == 0 {
      NoHeads();
    } else {
      var n := |s| - 1;
      StartsAre(s[..n]);
      WordsStep(s);
      StartsStep(s);
      var front, starts := Words(s[..n]), WordStarts(s[..n]);
      if IsSpace(s[n]) {
        assert Words(s) == front && WordStarts(s) == starts;
      } else {
        CapitalLetter(s[n]);
        if n == 0 || IsSpace(s[n - 1]) {
          HeadsMore(front, starts, s[n], UpperLetter(s[n]));
          assert Words(s) == front + [[s[n]]] && WordStarts(s) == starts + [UpperLetter(s[n])];
        } else {
          HeadsLonger(front, starts, s[n]);
          assert Words(s) == front[..|front| - 1] + [front[|front| - 1] + [s[n]]] && WordStarts(s) == starts;
        }
      }
    }
  }

  lemma {:induction false} NoHeads()
    ensures Heads(Words(""), WordStarts(""))
  {
  }

  lemma {:induction false} StartsStep(s: string)
    requires 0 < |s| && forall i :: 0 <= i < |s| ==> IsAlnum(s[i]) || IsSpace(s[i])
    ensures var n := |s| - 1; var begins := n == 0 || IsSpace(s[n - 1]);
      WordStarts(s) ==
      if !IsSpace(s[n]) && begins then WordStarts(s[..n]) + [UpperLetter(s[n])] else WordStarts(s[..n])
    ensures IsSpace(s[|s| - 1]) || IsAlnum(s[|s| - 1])
  {
    assert forall c :: IsAlnum(c) ==> !IsSpace(c);
  }

  /** The k-th initial is the capital of the first letter of the k-th word, for the first six words. */
  lemma {:induction false} InitialsAre(name: string)
    ensures var words, r := Words(Cleaned(name)), Initials(name);
      if |words| == 0 then r == "OP"
      else |r| == Min(6, |words|) && forall k :: 0 <= k < |r| ==> Capitalised(words[k][0], r[k])
  {
    hide Capitalised, WordStarts, Words, Cleaned;
    StartsAre(Cleaned(name));
  }

  /** Cleaning keeps letters, digits and spaces, writes the barred d plainly and drops everything else. */
  lemma {:induction false} CleanedAdds(name: string, c: char)
    ensures Cleaned(name + [c]) == Cleaned(name) +
      if 'a' <= c <= 'z' || 'A' <= c <= 'Z' || '0' <= c <= '9' || IsSpace(c) then [c]
      else if c == '\U{0111}' then "d" else if c == '\U{0110}' then "D" else ""
  {
    assert (name + [c])[..|name|] == name;
  }

  // ----- Sequence numbers ----------------------------------------------------------------------

  function DigitChar(d: nat): (c: char)
    requires d < 10
    ensures IsDigit(c) && c as int - '0' as int == d
  {
    ('0' as int + d) as char
  }

  function Decimal(n: nat): (s: string)
    ensures |s| > 0 && forall i :: 0 <= i < |s| ==> IsDigit(s[i])
    ensures n < 10 ==> |s| == 1
    ensures 10 <= n < 100 ==> |s| == 2
  {
    if n < 10 then [DigitChar(n)] else Decimal(n / 10) + [DigitChar(n % 10)]
  }

  /** Zero-padded to three digits below 1000. */
  function Padded(n: nat): (s: string)
    ensures forall i :: 0 <= i < |s| ==> IsDigit(s[i])
    ensures n < 100 ==> |s| == 3
  {
    var s := Decimal(n);
    if n < 1000 && |s| == 1 then "00" + s else if n < 1000 && |s| == 2 then "0" + s else s
  }

  function ReadNumber(s: string): int {
    if |s| == 0 then 0 else 10 * ReadNumber(s[..|s| - 1]) + (s[|s| - 1] as int - '0' as int)
  }

  lemma {:induction false} DecimalReads(n: nat)
    ensures ReadNumber(Decimal(n)) == n
  {
    if n < 10 {
      assert Decimal(n)[..0] == "";
    } else {
      DecimalReads(n / 10);
      var s := Decimal(n);
      assert s[..|s| - 1] == Decimal(n / 10);
    }
  }

  lemma {:induction false} ZeroInFront(s: string)
    requires |s| > 0
    ensures ReadNumber("0" + s) == ReadNumber(s)
  {
    var t := "0" + s;
    assert t[..|t| - 1] == "0" + s[..|s| - 1];
    if |s| == 1 {
      assert s[..0] == "" && t[..1] == "0" && t[..1][..0] == "";
      assert ReadNumber(t[..1]) == 0;
    } else {
      ZeroInFront(s[..|s| - 1]);
    }
  }

  /** Padding is undone by reading the number. */
  lemma {:induction false} PaddedReads(n: nat)
    ensures ReadNumber(Padded(n)) == n
  {
    DecimalReads(n);
    var s := Decimal(n);
    ZeroInFront(s);
    ZeroInFront("0" + s);
    assert "00" + s == "0" + ("0" + s);
  }

  // ----- Splitting at dashes -------------------------------------------------------------------

  predicate NoDash(s: string) {
    forall i :: 0 <= i < |s| ==> s[i] != '-'
  }

  /** What precedes and follows the last dash. */
  function SplitLast(s: string): Option<(string, string)> {
    if |s| == 0 then None
    else if s[|s| - 1] == '-' then Some((s[..|s| - 1], ""))
    else match SplitLast(s[..|s| - 1])
      case None => None
      case Some(p) => Some((p.0, p.1 + [s[|s| - 1]]))
  }

  lemma {:induction false} SplitLastOf(a: string, b: string)
    requires NoDash(b)
    ensures SplitLast(a + "-" + b) == Some((a, b))
  {
    var s := a + "-" + b;
    if |b| == 0 {
      assert s[..|s| - 1] == a;
    } else {
      var n := |b| - 1;
      assert s[..|s| - 1] == a + "-" + b[..n];
      SplitLastOf(a, b[..n]);
      assert b == b[..n] + [b[n]];
    }
  }

  /** What precedes and follows the first dash. */
  function SplitFirst(s: string): Option<(string, string)> {
    if |s| == 0 then None
    else if s[0] == '-' then Some(("", s[1..]))
    else match SplitFirst(s[1..])
      case None => None
      case Some(p) => Some(([s[0]] + p.0, p.1))
  }

  lemma {:induction false} SplitFirstOf(a: string, b: string)
    requires NoDash(a)
    ensures SplitFirst(a + "-" + b) == Some((a, b))
  {
    var s := a + "-" + b;
    if |a| == 0 {
      assert s[1..] == b;
    } else {
      assert s[1..] == a[1..] + "-" + b;
      SplitFirstOf(a[1..], b);
      assert a == [a[0]] + a[1..];
    }
  }

  // ----- The two formats -----------------------------------------------------------------------

  function FormatOrder(prefix: string, initials: string, period: string, n: nat): string {
    prefix + "-" + initials + "-" + period + "-" + Padded(n)
  }

  function FormatInvoice(prefix: string, hubCode: string, period: string, n: nat): string {
    prefix + "-" + hubCode + "-" + period + "-" + Padded(n)
  }

  datatype Read = Read(first: string, second: string, period: string, number: int)

  /** Read from the right: neither initials, period nor number contain a dash, the hub prefix may. */
  function ReadOrder(code: string): Option<Read> {
    match SplitLast(code)
    case None => None
    case Some(a) =>
      match SplitLast(a.0)
      case None => None
      case Some(b) =>
        match SplitLast(b.0)
        case None => None
        case Some(c) => Some(Read(c.0, c.1, b.1, ReadNumber(a.1)))
  }

  /** The invoice type is what precedes the first dash; the hub code may contain dashes. */
  function ReadInvoice(code: string): Option<Read> {
    match SplitLast(code)
    case None => None
    case Some(a) =>
      match SplitLast(a.0)
      case None => None
      case Some(b) =>
        match SplitFirst(b.0)
        case None => None
        case Some(c) => Some(Read(c.0, c.1, b.1, ReadNumber(a.1)))
  }

  lemma {:induction false} PaddedNoDash(n: nat)
    ensures NoDash(Padded(n))
  {
    forall i | 0 <= i < |Padded(n)| ensures Padded(n)[i] != '-' {
      assert IsDigit(Padded(n)[i]);
    }
  }

  lemma {:induction false} OrderReads(prefix: string, initials: string, period: string, n: nat)
    requires NoDash(initials) && NoDash(period)
    ensures ReadOrder(FormatOrder(prefix, initials, period, n)) == Some(Read(prefix, initials, period, n))
  {
    hide SplitLast, Padded, ReadNumber;
    PaddedNoDash(n);
    PaddedReads(n);
    SplitLastOf(prefix + "-" + initials + "-" + period, Padded(n));
    SplitLastOf(prefix + "-" + initials, period);
    SplitLastOf(prefix, initials);
  }

  lemma {:induction false} InvoiceReads(prefix: string, hubCode: string, period: string, n: nat)
    requires NoDash(prefix) && NoDash(period)
    ensures ReadInvoice(FormatInvoice(prefix, hubCode, period, n)) == Some(Read(prefix, hubCode, period, n))
  {
    hide SplitLast, SplitFirst, Padded, ReadNumber;
    PaddedNoDash(n);
    PaddedReads(n);
    SplitLastOf(prefix + "-" + hubCode + "-" + period, Padded(n));
    SplitLastOf(prefix + "-" + hubCode, period);
    SplitFirstOf(prefix, hubCode);
  }

  /** INVOICE_PREFIX, and PGD for a type it does not list. */
  function InvoicePrefix(kind: Option<TxType>): (r: string)
    ensures |r| == 3 && NoDash(r)
  {
    match kind
    case Some(InboundTx) => "PNK"
    case Some(TransferTx) => "PXK"
    case Some(OutboundTx) => "PGH"
    case Some(AdjustmentTx) => "DCH"
    case None => "PGD"
  }

  /** What a reader of an invoice code takes it for. */
  function KindRead(prefix: string): Option<TxType> {
    if prefix == "PNK" then Some(InboundTx)
    else if prefix == "PXK" then Some(TransferTx)
    else if prefix == "PGH" then Some(OutboundTx)
    else if prefix == "DCH" then Some(AdjustmentTx)
    else None
  }

  /** An invoice code tells the type of its invoice, its hub, its period and its number. */
  lemma {:induction false} InvoiceTells(kind: Option<TxType>, hubCode: string, period: string, n: nat)
    requires NoDash(period)
    ensures var read := ReadInvoice(FormatInvoice(InvoicePrefix(kind), hubCode, period, n));
      read.Some? && KindRead(read.value.first) == kind && read.value.second == hubCode && read.value.period == period &&
      read.value.number == n
  {
    hide ReadInvoice, FormatInvoice;
    InvoiceReads(InvoicePrefix(kind), hubCode, period, n);
  }

  // ----- Counters ------------------------------------------------------------------------------

  /** The unique key of order_code_counter. */
  datatype Key = CounterKey(hub: nat, owner: string, period: string)

  type Counters = map<Key, nat>

  /** INSERT ... ON CONFLICT DO UPDATE ... RETURNING "lastSequence" */
  function Bumped(counters: Counters, key: Key): nat {
    if key in counters then counters[key] + 1 else 1
  }

  /** One allocation: an order code for an operator of a hub, or an invoice code of a type at a hub (0 for none). */
  datatype Ask =
    | AskOrder(hub: nat, name: string, period: string)
    | AskInvoice(hub: nat, kind: Option<TxType>, period: string)
  {
    function Key(): Key {
      match this
      case AskOrder(hub, name, period) => CounterKey(hub, Initials(name), period)
      case AskInvoice(hub, kind, period) => CounterKey(hub, "INV-" + InvoicePrefix(kind), period)
    }
  }

  /** How hubs are written: the order prefix and the invoice code of each. */
  datatype HubNames = HubNames(prefix: nat -> string, code: nat -> string)

  function Format(ask: Ask, names: HubNames, n: nat): string {
    match ask
    case AskOrder(hub, name, period) => FormatOrder(names.prefix(hub), Initials(name), period, n)
    case AskInvoice(hub, kind, period) => FormatInvoice(InvoicePrefix(kind), names.code(hub), period, n)
  }

  function CountersAfter(start: Counters, asks: seq<Ask>): Counters {
    if |asks| == 0 then start
    else
      var before := CountersAfter(start, asks[..|asks| - 1]);
      var key := asks[|asks| - 1].Key();
      before[key := Bumped(before, key)]
  }

  /** The number the k-th allocation is given. */
  function NumberOf(start: Counters, asks: seq<Ask>, k: nat): nat
    requires k < |asks|
  {
    Bumped(CountersAfter(start, asks[..k]), asks[k].Key())
  }

  function CodeOf(start: Counters, asks: seq<Ask>, names: HubNames, k: nat): string
    requires k < |asks|
  {
    Format(asks[k], names, NumberOf(start, asks, k))
  }

  // ----- Numbers follow one another ------------------------------------------------------------

  /** How many of the first n allocations draw on the counter. */
  function Drawn(asks: seq<Ask>, key: Key, n: nat): nat
    requires n <= |asks|
  {
    if n == 0 then 0 else Drawn(asks, key, n - 1) + if asks[n - 1].Key() == key then 1 else 0
  }

  lemma {:induction false} CountersCount(start: Counters, asks: seq<Ask>, key: Key, n: nat)
    requires n <= |asks|
    ensures var after := CountersAfter(start, asks[..n]);
      (key in after <==> key in start || 0 < Drawn(asks, key, n)) &&
      (key in after ==> after[key] == (if key in start then start[key] else 0) + Drawn(asks, key, n))
    decreases n
  {
    hide Initials;
    if n > 0 {
      CountersCount(start, asks, key, n - 1);
      assert asks[..n][..n - 1] == asks[..n - 1];
    }
  }

  /** The numbers of a counter are consecutive: each is one more than all those drawn before it. */
  lemma {:induction false} NumbersConsecutive(start: Counters, asks: seq<Ask>, k: nat)
    requires k < |asks|
    ensures var key := asks[k].Key();
      NumberOf(start, asks, k) == 1 + Drawn(asks, key, k) + if key in start then start[key] else 0
  {
    hide Initials, CountersAfter;
    CountersCount(start, asks, asks[k].Key(), k);
  }

  // ----- No code is given twice ----------------------------------------------------------------

  lemma {:induction false} CounterStep(start: Counters, asks: seq<Ask>, n: nat)
    requires n < |asks|
    ensures CountersAfter(start, asks[..n + 1]) ==
            CountersAfter(start, asks[..n])[asks[n].Key() := Bumped(CountersAfter(start, asks[..n]), asks[n].Key())]
  {
    assert asks[..n + 1][..n] == asks[..n] && asks[..n + 1][n] == asks[n];
  }

  /** A counter never falls, and every allocation under its key raises it. */
  lemma {:induction false} CounterGrows(start: Counters, asks: seq<Ask>, i: nat, j: nat)
    requires i < j <= |asks|
    ensures asks[i].Key() in CountersAfter(start, asks[..j]) &&
            NumberOf(start, asks, i) <= CountersAfter(start, asks[..j])[asks[i].Key()]
    decreases j
  {
    hide CountersAfter;
    var n := j - 1;
    CounterStep(start, asks, n);
    if i < n {
      CounterGrows(start, asks, i, n);
    }
  }

  lemma {:induction false} NumbersRise(start: Counters, asks: seq<Ask>, i: nat, j: nat)
    requires i < j < |asks| && asks[i].Key() == asks[j].Key()
    ensures NumberOf(start, asks, i) < NumberOf(start, asks, j)
  {
    CounterGrows(start, asks, i, j);
  }

  lemma {:induction false} InitialsNoDash(name: string)
    ensures NoDash(Initials(name))
  {
    forall i | 0 <= i < |Initials(name)| ensures Initials(name)[i] != '-' {
      assert IsInitial(Initials(name)[i]);
    }
  }

  /** The keys reserved for invoices never meet an operator's. */
  lemma {:induction false} ReservedKeysApart(a: Ask, b: Ask)
    requires a.AskOrder? && b.AskInvoice?
    ensures a.Key() != b.Key()
  {
    InitialsNoDash(a.name);
    assert ("INV-" + InvoicePrefix(b.kind))[3] == '-';
  }

  /** Hubs are written apart and periods contain no dash. */
  ghost predicate Readable(asks: seq<Ask>, names: HubNames) {
    (forall a, b :: names.prefix(a) == names.prefix(b) ==> a == b) &&
    (forall a, b :: names.code(a) == names.code(b) ==> a == b) &&
    forall k :: 0 <= k < |asks| ==> NoDash(asks[k].period)
  }

  /** Over any interleaving of allocations from any counters, no two codes of the same sort are equal. */
  lemma {:induction false} CodesNeverRepeat(start: Counters, asks: seq<Ask>, names: HubNames, i: nat, j: nat)
    requires i < j < |asks| && Readable(asks, names) && asks[i].AskOrder? == asks[j].AskOrder?
    ensures CodeOf(start, asks, names, i) != CodeOf(start, asks, names, j)
  {
    hide FormatOrder, FormatInvoice, Initials, CountersAfter;
    var a, b := asks[i], asks[j];
    var m, n := NumberOf(start, asks, i), NumberOf(start, asks, j);
    if a.Key() == b.Key() { NumbersRise(start, asks, i, j); }
    if a.AskOrder? {
      InitialsNoDash(a.name);
      InitialsNoDash(b.name);
      OrderReads(names.prefix(a.hub), Initials(a.name), a.period, m);
      OrderReads(names.prefix(b.hub), Initials(b.name), b.period, n);
    } else {
      InvoiceReads(InvoicePrefix(a.kind), names.code(a.hub), a.period, m);
      InvoiceReads(InvoicePrefix(b.kind), names.code(b.hub), b.period, n);
    }
  }

  // ----- The counter table ---------------------------------------------------------------------

  class CounterTable {
    var last: Counters

    constructor ()
      ensures last == map[]
    {
      last := map[];
    }

    method Next(key: Key) returns (n: nat)
      modifies this
      ensures n == Bumped(old(last), key)
      ensures last == old(last)[key := n]
    {
      n := if key in last then last[key] + 1 else 1;
      last := last[key := n];
    }

    /** generateOrderCode, once the operator's hub is known to be active. */
    method GenerateOrderCode(hub: nat, name: string, period: string, prefix: string) returns (code: string)
      modifies this
      ensures last == CountersAfter(old(last), [AskOrder(hub, name, period)])
      ensures code == FormatOrder(prefix, Initials(name), period, Bumped(old(last), AskOrder(hub, name, period).Key()))
    {
      var initials := Initials(name);
      var n := Next(CounterKey(hub, initials, period));
      var seqStr := if n < 1000 then Padded(n) else Decimal(n);
      code := prefix + "-" + initials + "-" + period + "-" + seqStr;
      assert [AskOrder(hub, name, period)][..0] == [];
    }

    /** generateInvoiceCode; `hub` is 0 when the invoice has none. */
    method GenerateInvoiceCode(hub: nat, kind: Option<TxType>, period: string, hubCode: string) returns (code: string)
      modifies this
      ensures last == CountersAfter(old(last), [AskInvoice(hub, kind, period)])
      ensures code == FormatInvoice(InvoicePrefix(kind), hubCode, period, Bumped(old(last), AskInvoice(hub, kind,
          period).Key()))
    {
      var prefix := InvoicePrefix(kind);
      var n := Next(CounterKey(hub, "INV-" + prefix, period));
      var seqStr := if n < 1000 then Padded(n) else Decimal(n);
      code := prefix + "-" + hubCode + "-" + period + "-" + seqStr;
      assert [AskInvoice(hub, kind, period)][..0] == [];
    }
  }
}
