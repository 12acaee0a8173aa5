/** The suppliers page: the supplier table filter (search over name, code and
    the optional contact name; status select), the summary cards (active
    suppliers, total purchases, pending balance) and the average payment term,
    which reads the number of days out of a text such as "30 días" the way
    `parseInt(terms.split(' ')[0]) || 0` does. */
module Suppliers {
  import opened Text
  import opened Listing

  datatype SupplierStatus = Active | Inactive
  {
    function Name(): string
    {
      match this
      case Active => "active"
      case Inactive => "inactive"
    }
  }

  datatype Supplier = Supplier(
    id: string, code: string, name: string, contactName: Option<string>,
    paymentTerms: string, totalPurchases: real, status: SupplierStatus,
    balance: Option<real>)

  datatype SupplierQuery = SupplierQuery(search: string, status: string)

  const All: string := "all"

  predicate ContactMatches(contact: Option<string>, term: string)
  {
    contact.Some? && FoldContains(contact.value, term)
  }

  predicate SupplierMatches(s: Supplier, q: SupplierQuery)
  {
    && (FoldContains(s.name, q.search) || FoldContains(s.code, q.search) || ContactMatches(s.contactName, q.search))
    && Selects(q.status, All, s.status.Name())
  }

  /** `filteredSuppliers`. */
  function FilterSuppliers(suppliers: seq<Supplier>, q: SupplierQuery): (r: seq<Supplier>)
    ensures forall s :: s in r <==> s in suppliers && SupplierMatches(s, q)
    ensures IsSubseq(r, suppliers)
    ensures |r| == Count(suppliers, (s: Supplier) => SupplierMatches(s, q))
    ensures q.status != All ==> forall s :: s in r ==> s.status.Name() == q.status
    ensures forall s :: s in r && s.contactName.None? ==> FoldContains(s.name, q.search) || FoldContains(s.code, q.search)
  {
    Filter(suppliers, (s: Supplier) => SupplierMatches(s, q))
  }

  /** An empty search with the select on `'all'` lists every supplier. */
  lemma NoCriteriaListsEverySupplier(suppliers: seq<Supplier>)
    ensures FilterSuppliers(suppliers, SupplierQuery("", All)) == suppliers
  {
    forall s | s in suppliers
      ensures SupplierMatches(s, SupplierQuery("", All))
    {
      FoldContainsEmpty(s.name);
    }
  }

  function ActiveCount(suppliers: seq<Supplier>): (n: nat)
    ensures n <= |suppliers|
  {
    Count(suppliers, (s: Supplier) => s.status == Active)
  }

  function InactiveCount(suppliers: seq<Supplier>): nat
  {
    Count(suppliers, (s: Supplier) => s.status == Inactive)
  }

  /** "N activos de M totales": active and inactive suppliers make up the list. */
  lemma ActivePlusInactive(suppliers: seq<Supplier>)
    ensures ActiveCount(suppliers) + InactiveCount(suppliers) == |suppliers|
  {
    CountComplement(suppliers, (s: Supplier) => s.status == Active, (s: Supplier) => s.status == Inactive);
  }

  function Purchases(s: Supplier): real { s.totalPurchases }

  function Balance(s: Supplier): real { OrZero(s.balance) }

  function TotalPurchases(suppliers: seq<Supplier>): real
  {
    SumOf(suppliers, Purchases)
  }

  /** `totalBalance`: Σ (balance || 0). */
  function TotalBalance(suppliers: seq<Supplier>): real
  {
    SumOf(suppliers, Balance)
  }

  /** A new supplier adds its purchases to "Compras Totales" and its balance,
      or nothing when it has none, to "Saldo Pendiente". */
  lemma TotalsOfAddedSupplier(suppliers: seq<Supplier>, s: Supplier)
    ensures TotalPurchases(suppliers + [s]) == TotalPurchases(suppliers) + s.totalPurchases
    ensures TotalBalance(suppliers + [s]) == TotalBalance(suppliers) + (if s.balance.Some? then s.balance.value else 0.0)
  {
    SumOfAppend(suppliers, [s], Purchases);
    SumOfAppend(suppliers, [s], Balance);
  }

  /** A supplier without a balance contributes nothing: dropping every such
      supplier leaves the pending balance as it was. */
  lemma {:induction false} AbsentBalancesCountAsZero(suppliers: seq<Supplier>)
    ensures TotalBalance(Filter(suppliers, (s: Supplier) => s.balance.Some?)) == TotalBalance(suppliers)
  {
    if |suppliers| > 0 {
      AbsentBalancesCountAsZero(suppliers[1..]);
    }
  }

  // ---------------------------------------------------------------------------
  // Payment terms: `parseInt(terms.split(' ')[0]) || 0`

  /** `terms.split(' ')[0]`: the text before the first space. */
  function FirstWord(s: string): (w: string)
    ensures |w| <= |s| && w == s[..|w|]
    ensures ' ' !in w
    ensures |w| < |s| ==> s[|w|] == ' '
  {
    if |s| == 0 || s[0] == ' ' then ""
    else [s[0]] + FirstWord(s[1..])
  }

  /** The white space `parseInt` skips before the number: the ECMAScript
      WhiteSpace characters (tab, vertical tab, form feed, the byte-order mark
      and every Unicode space separator) and the four line terminators. */
  predicate IsJsSpace(c: char)
  {
    || c == '\t' || c == '\U{000B}' || c == '\U{000C}' || c == '\U{FEFF}'
    || c == ' ' || c == '\U{00A0}' || c == '\U{1680}' || ('\U{2000}' <= c <= '\U{200A}')
    || c == '\U{202F}' || c == '\U{205F}' || c == '\U{3000}'
    || c == '\n' || c == '\r' || c == '\U{2028}' || c == '\U{2029}'
  }

  function TrimStart(s: string): (r: string)
    ensures |r| <= |s|
    ensures |r| > 0 ==> !IsJsSpace(r[0])
  {
    if |s| > 0 && IsJsSpace(s[0]) then TrimStart(s[1..]) else s
  }

  predicate IsHexLetter(c: char) { 'a' <= c <= 'f' || 'A' <= c <= 'F' }

  predicate IsRadixDigit(c: char, hex: bool)
  {
    IsDigit(c) || (hex && IsHexLetter(c))
  }

  function RadixDigitValue(c: char, hex: bool): (d: nat)
    requires IsRadixDigit(c, hex)
    ensures d < (if hex then 16 else 10)
  {
    if IsDigit(c) then DigitValue(c)
    else if 'a' <= c <= 'f' then c as int - 'a' as int + 10
    else c as int - 'A' as int + 10
  }

  /** The longest prefix made of digits of the radix. */
  function DigitRun(s: string, hex: bool): (r: string)
    ensures |r| <= |s| && r == s[..|r|]
    ensures forall i :: 0 <= i < |r| ==> IsRadixDigit(r[i], hex)
    ensures |r| < |s| ==> !IsRadixDigit(s[|r|], hex)
  {
    if |s| > 0 && IsRadixDigit(s[0], hex) then [s[0]] + DigitRun(s[1..], hex) else ""
  }

  function RadixValue(s: string, hex: bool): nat
    requires forall i :: 0 <= i < |s| ==> IsRadixDigit(s[i], hex)
  {
    if |s| == 0 then 0
    else RadixValue(s[..|s| - 1], hex) * (if hex then 16 else 10) + RadixDigitValue(s[|s| - 1], hex)
  }

  predicate HasHexPrefix(s: string)
  {
    |s| >= 2 && s[0] == '0' && (s[1] == 'x' || s[1] == 'X')
  }

  /** `parseInt(s)` with no radix: `None` stands for NaN. After the white
      space and an optional sign, a `0x`/`0X` prefix selects base 16; the
      number is the longest run of digits that follows, and an empty run is NaN. */
  function ParseInt(s: string): (r: Option<int>)
  {
    var t := TrimStart(s);
    var negative := |t| > 0 && t[0] == '-';
    var unsigned := if |t| > 0 && (t[0] == '-' || t[0] == '+') then t[1..] else t;
    var hex := HasHexPrefix(unsigned);
    var body := if hex then unsigned[2..] else unsigned;
    var digits := DigitRun(body, hex);
    if |digits| == 0 then None
    else
      var magnitude: int := RadixValue(digits, hex);
      Some(if negative then -magnitude else magnitude)
  }

  /** `parseInt(terms.split(' ')[0]) || 0`: NaN and zero both read as 0. */
  function TermDays(terms: string): int
  {
    match ParseInt(FirstWord(terms))
    case None => 0
    case Some(v) => v
  }

  lemma {:induction false} FirstWordOfSpaced(w: string, rest: string)
    requires ' ' !in w
    ensures FirstWord(w + " " + rest) == w
  {
    if |w| > 0 {
      assert (w + " " + rest)[1..] == w[1..] + " " + rest;
      FirstWordOfSpaced(w[1..], rest);
    }
  }

  lemma {:induction false} DecimalRadixValue(s: string)
    requires AllDigits(s)
    ensures RadixValue(s, false) == DecimalValue(s)
  {
    if |s| > 0 {
      DecimalRadixValue(s[..|s| - 1]);
    }
  }

  lemma {:induction false} DigitRunOfDigits(s: string)
    requires AllDigits(s)
    ensures DigitRun(s, false) == s
  {
    if |s| > 0 {
      DigitRunOfDigits(s[1..]);
    }
  }

  /** A plain decimal numeral without a `0x` prefix parses to its value. */
  lemma ParseDecimal(w: string)
    requires |w| > 0 && AllDigits(w) && !HasHexPrefix(w)
    ensures ParseInt(w) == Some(DecimalValue(w))
  {
    assert TrimStart(w) == w;
    DigitRunOfDigits(w);
    DecimalRadixValue(w);
  }

  /** A term written as a number of days followed by a space and any text,
      such as "30 días", reads back as that number. */
  lemma TermDaysRoundTrip(days: nat, rest: string)
    ensures TermDays(NatToString(days) + " " + rest) == days
  {
    var w := NatToString(days);
    FirstWordOfSpaced(w, rest);
    assert !HasHexPrefix(w);
    ParseDecimal(w);
    NatToStringRoundTrip(days);
  }

  lemma {:induction false} TrimStartSkips(ws: string, s: string)
    requires forall i :: 0 <= i < |ws| ==> IsJsSpace(ws[i])
    ensures TrimStart(ws + s) == TrimStart(s)
  {
    if |ws| > 0 {
      var t := ws + s;
      assert t[0] == ws[0] && IsJsSpace(ws[0]);
      assert t[1..] == ws[1..] + s;
      TrimStartSkips(ws[1..], s);
    } else {
      assert ws + s == s;
    }
  }

  /** White space other than the plain space may precede the number, since
      the split happens at ' ' only: "\U{3000}30 días" reads as 30. */
  lemma TermDaysSkipsLeadingSpace(ws: string, days: nat, rest: string)
    requires forall i :: 0 <= i < |ws| ==> IsJsSpace(ws[i]) && ws[i] != ' '
    ensures TermDays(ws + NatToString(days) + " " + rest) == days
  {
    var w := NatToString(days);
    assert ' ' !in ws + w by {
      assert forall i :: 0 <= i < |ws + w| ==> (ws + w)[i] != ' ';
    }
    assert ws + w + " " + rest == (ws + w) + " " + rest;
    FirstWordOfSpaced(ws + w, rest);
    TrimStartSkips(ws, w);
    assert TrimStart(w) == w;
    assert ParseInt(ws + w) == ParseInt(w);
    TermDaysRoundTrip(days, rest);
    FirstWordOfSpaced(w, rest);
  }

  /** A term that does not start with a number, such as "Contado", reads as 0. */
  lemma NonNumericTermIsZero(terms: string)
    requires |terms| > 0 && !IsJsSpace(terms[0]) && !IsDigit(terms[0])
    requires terms[0] != '-' && terms[0] != '+'
    ensures TermDays(terms) == 0
  {
  }

  /** The day count of every supplier's terms, in list order. */
  function PaymentDays(suppliers: seq<Supplier>): (days: seq<int>)
    ensures |days| == |suppliers|
    ensures forall i :: 0 <= i < |suppliers| ==> days[i] == TermDays(suppliers[i].paymentTerms)
  {
    seq(|suppliers|, i requires 0 <= i < |suppliers| => TermDays(suppliers[i].paymentTerms))
  }

  /** `avgPaymentTerms`: the summed days over the number of suppliers; on an
      empty list the division is 0 / 0, NaN, which is `None` here. */
  function AvgPaymentTerms(suppliers: seq<Supplier>): (r: Option<real>)
    ensures r.Some? <==> |suppliers| > 0
    ensures r.Some? ==> r.value == IntSum(PaymentDays(suppliers)) as real / |suppliers| as real
  {
    Mean(PaymentDays(suppliers))
  }

  /** The average term lies between the shortest and the longest term. */
  lemma AvgPaymentTermsWithin(suppliers: seq<Supplier>, lo: int, hi: int)
    requires |suppliers| > 0
    requires forall s :: s in suppliers ==> lo <= TermDays(s.paymentTerms) <= hi
    ensures lo as real <= AvgPaymentTerms(suppliers).value <= hi as real
  {
    var days := PaymentDays(suppliers);
    forall i | 0 <= i < |days|
      ensures lo <= days[i] <= hi
    {
      assert suppliers[i] in suppliers;
    }
    MeanWithin(days, lo, hi);
  }
}
