/** Double-entry postings, balanced entries and the append-only journal. */
module Ledger {
  import opened Base

  datatype Currency = Currency(code: string, scale: nat)

  datatype Money = Money(minor: int, currency: Currency)

  datatype LedgerAccount =
    | CustomerCash(account: nat, currency: Currency)
    | CustomerCashReserved(account: nat, currency: Currency)
    | PaperFunding(currency: Currency)
    | BrokerSettlement(currency: Currency)
    | FeesRevenue(currency: Currency)
    | HouseSuspense(currency: Currency)
    | CustomerPosition(account: nat, instrument: nat)

  datatype Direction = Debit | Credit

  datatype Posting = Posting(account: LedgerAccount, direction: Direction, amount: Money) {
    /** What the line adds to the account's debit-minus-credit balance. */
    function Delta(): int { if direction.Debit? then amount.minor else -amount.minor }
  }

  /** Idempotency keys: text chosen by a client, or one of the key families the engine builds. */
  datatype Key =
    | ClientKey(text: string)
    | ReserveKey(account: nat, order: nat)
    | ReplaceReserveKey(account: nat, order: nat)
    | ReplaceReleaseKey(account: nat, order: nat)
    | ReleaseKey(account: nat, order: nat)
    | FillKey(exec: string)
    | AlignReserveKey(account: nat, code: string)
    | AlignReleaseKey(account: nat, code: string)
  {
    predicate IsEmpty() { ClientKey? && text == "" }
  }

  datatype LedgerError =
    | MoneyOverflow
    | CurrencyMismatch
    | EmptyEntry
    | ZeroAmount
    | Unbalanced(debit: int, credit: int)
    | MixedCurrency
    | EmptyIdempotencyKey
    | InsufficientFunds
    | InsufficientReserved
    | InvalidQuantity
    | InsufficientPosition

  datatype Entry = Entry(key: Key, causation: Option<string>, correlation: Option<string>, postings: seq<Posting>)

  // ----- building balanced entries

  /** One pass over the lines with running debit, credit and currency, stopping at the first error. */
  function Tally(lines: seq<Posting>, debit: int, credit: int, currency: Option<Currency>): Result<(int, int), LedgerError> {
    if lines == [] then Ok((debit, credit))
    else
      var amount := lines[0].amount;
      if amount.minor <= 0 then Err(ZeroAmount)
      else if currency.Some? && currency.value != amount.currency then Err(MixedCurrency)
      else if lines[0].direction.Debit? then
        if !FitsI128(debit + amount.minor) then Err(MoneyOverflow)
        else Tally(lines[1..], debit + amount.minor, credit, Some(amount.currency))
      else
        if !FitsI128(credit + amount.minor) then Err(MoneyOverflow)
        else Tally(lines[1..], debit, credit + amount.minor, Some(amount.currency))
  }

  function Build(key: Key, causation: Option<string>, correlation: Option<string>, lines: seq<Posting>): Result<Entry, LedgerError> {
    if key.IsEmpty() then Err(EmptyIdempotencyKey)
    else if lines == [] then Err(EmptyEntry)
    else
      match Tally(lines, 0, 0, None)
      case Err(e) => Err(e)
      case Ok(t) => if t.0 != t.1 then Err(Unbalanced(t.0, t.1)) else Ok(Entry(key, causation, correlation, lines))
  }

  function DebitTotal(lines: seq<Posting>): int {
    if lines == [] then 0 else (if lines[0].direction.Debit? then lines[0].amount.minor else 0) + DebitTotal(lines[1..])
  }

  function CreditTotal(lines: seq<Posting>): int {
    if lines == [] then 0 else (if lines[0].direction.Credit? then lines[0].amount.minor else 0) + CreditTotal(lines[1..])
  }

  ghost predicate OneCurrency(lines: seq<Posting>) {
    forall i, j :: 0 <= i < |lines| && 0 <= j < |lines| ==> lines[i].amount.currency == lines[j].amount.currency
  }

  ghost predicate Positive(lines: seq<Posting>) {
    forall i :: 0 <= i < |lines| ==> lines[i].amount.minor > 0
  }

  ghost predicate BalancedLines(lines: seq<Posting>) {
    lines != [] && Positive(lines) && OneCurrency(lines) && DebitTotal(lines) == CreditTotal(lines)
  }

  ghost predicate AllIn(lines: seq<Posting>, c: Currency) {
    forall i :: 0 <= i < |lines| ==> lines[i].amount.currency == c
  }

  lemma {:induction false} TallyMeaning(lines: seq<Posting>, debit: int, credit: int, currency: Option<Currency>)
    requires 0 <= debit && 0 <= credit
    ensures var r := Tally(lines, debit, credit, currency);
      r.Ok? ==>
        && Positive(lines) && OneCurrency(lines)
        && (currency.Some? ==> AllIn(lines, currency.value))
        && r.value == (debit + DebitTotal(lines), credit + CreditTotal(lines))
    ensures Positive(lines) && (if currency.Some? then AllIn(lines, currency.value) else OneCurrency(lines))
      && FitsI128(debit) && FitsI128(credit)
      && FitsI128(debit + DebitTotal(lines)) && FitsI128(credit + CreditTotal(lines))
      ==> Tally(lines, debit, credit, currency).Ok?
    ensures Positive(lines) ==> DebitTotal(lines) >= 0 && CreditTotal(lines) >= 0
    decreases |lines|
  {
    if lines != [] {
      var a := lines[0].amount;
      var rest := lines[1..];
      var d := if lines[0].direction.Debit? then debit + a.minor else debit;
      var c := if lines[0].direction.Debit? then credit else credit + a.minor;
      if a.minor > 0 {
        TallyMeaning(rest, d, c, Some(a.currency));
        if Tally(lines, debit, credit, currency).Ok? {
          forall i | 0 <= i < |lines| ensures lines[i].amount.currency == a.currency && lines[i].amount.minor > 0 {
            if i > 0 { assert lines[i] == rest[i - 1]; }
          }
        }
        if Positive(lines) {
          forall i | 0 <= i < |rest| ensures rest[i].amount.minor > 0 { assert rest[i] == lines[i + 1]; }
          assert Positive(rest);
          if (if currency.Some? then AllIn(lines, currency.value) else OneCurrency(lines)) {
            forall i | 0 <= i < |rest| ensures rest[i].amount.currency == a.currency { assert rest[i] == lines[i + 1]; }
            assert AllIn(rest, a.currency);
          }
        }
      }
    }
  }

  /** An entry is built exactly from a non-empty key and non-empty, positive, single-currency lines
      whose debits equal their credits (and fit 128 bits). */
  lemma BuildExactlyBalanced(key: Key, causation: Option<string>, correlation: Option<string>, lines: seq<Posting>)
    ensures Build(key, causation, correlation, lines).Ok? <==>
            !key.IsEmpty() && BalancedLines(lines) && FitsI128(DebitTotal(lines))
    ensures Build(key, causation, correlation, lines).Ok? ==>
            Build(key, causation, correlation, lines).value == Entry(key, causation, correlation, lines)
  {
    TallyMeaning(lines, 0, 0, None);
    if Build(key, causation, correlation, lines).Ok? {
      TallyFits(lines, 0, 0, None);
    }
  }

  lemma {:induction false} TallyFits(lines: seq<Posting>, debit: int, credit: int, currency: Option<Currency>)
    requires FitsI128(debit) && FitsI128(credit) && Tally(lines, debit, credit, currency).Ok?
    ensures var t := Tally(lines, debit, credit, currency).value; FitsI128(t.0) && FitsI128(t.1)
    decreases |lines|
  {
    if lines != [] {
      var a := lines[0].amount;
      TallyFits(lines[1..], if lines[0].direction.Debit? then debit + a.minor else debit,
                if lines[0].direction.Debit? then credit else credit + a.minor, Some(a.currency));
    }
  }

  /** The entry builder's loop. */
  method BuildEntry(key: Key, causation: Option<string>, correlation: Option<string>, lines: seq<Posting>)
    returns (r: Result<Entry, LedgerError>)
    ensures r == Build(key, causation, correlation, lines)
  {
    if key.IsEmpty() { return Err(EmptyIdempotencyKey); }
    if lines == [] { return Err(EmptyEntry); }
    var debit, credit := 0, 0;
    var currency: Option<Currency> := None;
    var i := 0;
    while i < |lines|
      invariant 0 <= i <= |lines|
      invariant Tally(lines[i..], debit, credit, currency) == Tally(lines, 0, 0, None)
    {
      var posting := lines[i];
      assert lines[i..][0] == posting && lines[i..][1..] == lines[i + 1..];
      if posting.amount.minor <= 0 { return Err(ZeroAmount); }
      if currency.Some? && currency.value != posting.amount.currency { return Err(MixedCurrency); }
      currency := Some(posting.amount.currency);
      if posting.direction.Debit? {
        if !FitsI128(debit + posting.amount.minor) { return Err(MoneyOverflow); }
        debit := debit + posting.amount.minor;
      } else {
        if !FitsI128(credit + posting.amount.minor) { return Err(MoneyOverflow); }
        credit := credit + posting.amount.minor;
      }
      i := i + 1;
    }
    if debit != credit { return Err(Unbalanced(debit, credit)); }
    return Ok(Entry(key, causation, correlation, lines));
  }

  function Flip(p: Posting): Posting {
    p.(direction := if p.direction.Debit? then Credit else Debit)
  }

  function FlipAll(lines: seq<Posting>): seq<Posting> {
    if lines == [] then [] else [Flip(lines[0])] + FlipAll(lines[1..])
  }

  function Reverse(e: Entry, key: Key): Result<Entry, LedgerError> {
    Build(key, e.causation, e.correlation, FlipAll(e.postings))
  }

  method ReverseEntry(e: Entry, key: Key) returns (r: Result<Entry, LedgerError>)
    ensures r == Reverse(e, key)
  {
    var lines: seq<Posting> := [];
    var i := 0;
    while i < |e.postings|
      invariant 0 <= i <= |e.postings|
      invariant lines + FlipAll(e.postings[i..]) == FlipAll(e.postings)
    {
      assert e.postings[i..][0] == e.postings[i] && e.postings[i..][1..] == e.postings[i + 1..];
      assert lines + FlipAll(e.postings[i..]) == (lines + [Flip(e.postings[i])]) + FlipAll(e.postings[i + 1..]);
      lines := lines + [Flip(e.postings[i])];
      i := i + 1;
    }
    assert lines == FlipAll(e.postings);
    r := BuildEntry(key, e.causation, e.correlation, lines);
  }

  // ----- the journal

  datatype StoredEntry = StoredEntry(id: nat, entry: Entry)

  datatype PostOutcome = Posted(id: nat) | Duplicate(id: nat)

  datatype JournalState = JournalState(
    nextId: nat,
    entries: seq<StoredEntry>,
    byKey: map<Key, nat>,
    signed: map<LedgerAccount, int>)
  {
    function Balance(a: LedgerAccount): int { if a in signed then signed[a] else 0 }
  }

  const EMPTY_JOURNAL := JournalState(0, [], map[], map[])

  /** Applies the lines to the running balances; on overflow the lines before it stay applied. */
  function PostLines(signed: map<LedgerAccount, int>, lines: seq<Posting>): (map<LedgerAccount, int>, bool)
    decreases |lines|
  {
    if lines == [] then (signed, true)
    else
      var p := lines[0];
      if !FitsI128(p.Delta()) then (signed, false)
      else
        var before := if p.account in signed then signed[p.account] else 0;
        if !FitsI128(before + p.Delta()) then (signed[p.account := before], false)
        else PostLines(signed[p.account := before + p.Delta()], lines[1..])
  }

  function Post(j: JournalState, e: Entry): (JournalState, Result<PostOutcome, LedgerError>) {
    if e.key in j.byKey then (j, Ok(Duplicate(j.byKey[e.key])))
    else if j.nextId >= U64_MAX then (j, Err(MoneyOverflow))
    else
      var id := j.nextId + 1;
      var (signed, fits) := PostLines(j.signed, e.postings);
      if !fits then (j.(nextId := id, signed := signed), Err(MoneyOverflow))
      else (JournalState(id, j.entries + [StoredEntry(id, e)], j.byKey[e.key := id], signed), Ok(Posted(id)))
  }

  /** Debits minus credits of the lines on one account. */
  function Net(lines: seq<Posting>, a: LedgerAccount): int {
    if lines == [] then 0 else (if lines[0].account == a then lines[0].Delta() else 0) + Net(lines[1..], a)
  }

  function BalanceIn(signed: map<LedgerAccount, int>, a: LedgerAccount): int {
    if a in signed then signed[a] else 0
  }

  lemma {:induction false} PostLinesNet(signed: map<LedgerAccount, int>, lines: seq<Posting>)
    requires PostLines(signed, lines).1
    ensures forall a :: BalanceIn(PostLines(signed, lines).0, a) == BalanceIn(signed, a) + Net(lines, a)
    decreases |lines|
  {
    if lines != [] {
      var p := lines[0];
      PostLinesNet(signed[p.account := BalanceIn(signed, p.account) + p.Delta()], lines[1..]);
    }
  }

  /** Debits minus credits over every stored entry. */
  function EntriesNet(entries: seq<StoredEntry>, a: LedgerAccount): int {
    if entries == [] then 0
    else EntriesNet(entries[..|entries| - 1], a) + Net(entries[|entries| - 1].entry.postings, a)
  }

  /** The index the entries imply: each key to the id of its entry. */
  function KeyIndex(entries: seq<StoredEntry>): map<Key, nat> {
    if entries == [] then map[]
    else
      var last := entries[|entries| - 1];
      KeyIndex(entries[..|entries| - 1])[last.entry.key := last.id]
  }

  lemma KeyIndexSnoc(entries: seq<StoredEntry>, s: StoredEntry)
    ensures KeyIndex(entries + [s]) == KeyIndex(entries)[s.entry.key := s.id]
  {
    assert (entries + [s])[..|entries|] == entries;
  }

  /** The key index names exactly the stored entries. */
  ghost predicate Indexed(j: JournalState) { j.byKey == KeyIndex(j.entries) }

  lemma PostKeepsIndexed(j: JournalState, e: Entry)
    requires Indexed(j)
    ensures Indexed(Post(j, e).0)
  {
    if e.key in j.byKey {
    } else if j.nextId < U64_MAX && PostLines(j.signed, e.postings).1 {
      var s := StoredEntry(j.nextId + 1, e);
      assert Post(j, e).0.entries == j.entries + [s] && Post(j, e).0.byKey == j.byKey[s.entry.key := s.id];
      KeyIndexSnoc(j.entries, s);
    } else {
      assert Post(j, e).0.entries == j.entries && Post(j, e).0.byKey == j.byKey;
    }
  }

  /** Ids are 1..n, no key is stored twice, and the index is the one the entries imply. */
  ghost predicate Sequential(j: JournalState) {
    && j.nextId == |j.entries|
    && (forall i :: 0 <= i < |j.entries| ==> j.entries[i].id == i + 1)
    && DistinctKeys(j.entries)
    && j.byKey == KeyIndex(j.entries)
  }

  lemma {:induction false} KeyIndexHasStoredKeys(entries: seq<StoredEntry>)
    ensures forall i :: 0 <= i < |entries| ==> entries[i].entry.key in KeyIndex(entries)
    ensures forall k :: k in KeyIndex(entries) ==> exists i :: 0 <= i < |entries| && entries[i].entry.key == k
  {
    if entries != [] {
      var init := entries[..|entries| - 1];
      KeyIndexHasStoredKeys(init);
      forall k | k in KeyIndex(entries) ensures exists i :: 0 <= i < |entries| && entries[i].entry.key == k {
        if k in KeyIndex(init) {
          var i :| 0 <= i < |init| && init[i].entry.key == k;
          assert entries[i].entry.key == k;
        } else {
          assert entries[|entries| - 1].entry.key == k;
        }
      }
      forall i | 0 <= i < |entries| ensures entries[i].entry.key in KeyIndex(entries) {
        if i < |init| { assert init[i].entry.key in KeyIndex(init); }
      }
    }
  }

  ghost predicate AllBalanced(entries: seq<StoredEntry>) {
    forall i :: 0 <= i < |entries| ==> BalancedLines(entries[i].entry.postings)
  }

  /** The journal is what its own entries say it is. */
  ghost predicate JournalOk(j: JournalState) {
    && Sequential(j)
    && AllBalanced(j.entries)
    && forall a :: j.Balance(a) == EntriesNet(j.entries, a)
  }

  /** Posting the entries one by one from a given journal. */
  function PostAll(j: JournalState, es: seq<Entry>): (JournalState, bool) {
    if es == [] then (j, true)
    else
      var (p, ok) := PostAll(j, es[..|es| - 1]);
      var (n, r) := Post(p, es[|es| - 1]);
      (n, ok && r.Ok?)
  }

  ghost predicate DistinctKeys(entries: seq<StoredEntry>) {
    forall i, k :: 0 <= i < k < |entries| ==> entries[i].entry.key != entries[k].entry.key
  }

  lemma AppendKeepsDistinct(entries: seq<StoredEntry>, s: StoredEntry)
    requires DistinctKeys(entries) && s.entry.key !in KeyIndex(entries)
    ensures DistinctKeys(entries + [s])
  {
    KeyIndexHasStoredKeys(entries);
  }

  lemma AppendKeepsIndex(entries: seq<StoredEntry>, s: StoredEntry)
    ensures KeyIndex(entries + [s]) == KeyIndex(entries)[s.entry.key := s.id]
  {
    assert (entries + [s])[..|entries|] == entries;
  }

  lemma AppendKeepsSequential(j: JournalState, n: JournalState, e: Entry)
    requires Sequential(j) && e.key !in j.byKey
    requires n.nextId == |j.entries| + 1 && n.entries == j.entries + [StoredEntry(|j.entries| + 1, e)]
    requires n.byKey == j.byKey[e.key := |j.entries| + 1]
    ensures Sequential(n)
  {
    AppendKeepsDistinct(j.entries, StoredEntry(|j.entries| + 1, e));
    AppendKeepsIndex(j.entries, StoredEntry(|j.entries| + 1, e));
  }

  lemma FreshPost(j: JournalState, e: Entry)
    requires e.key !in j.byKey && Post(j, e).1.Ok?
    ensures PostLines(j.signed, e.postings).1
    ensures Post(j, e).0 == JournalState(j.nextId + 1, j.entries + [StoredEntry(j.nextId + 1, e)],
                                         j.byKey[e.key := j.nextId + 1], PostLines(j.signed, e.postings).0)
  {
  }

  lemma AppendKeepsBalances(j: JournalState, n: JournalState, e: Entry, id: nat)
    requires forall a :: j.Balance(a) == EntriesNet(j.entries, a)
    requires PostLines(j.signed, e.postings).1 && n.signed == PostLines(j.signed, e.postings).0
    requires n.entries == j.entries + [StoredEntry(id, e)]
    ensures forall a :: n.Balance(a) == EntriesNet(n.entries, a)
  {
    PostLinesNet(j.signed, e.postings);
    assert n.entries[..|j.entries|] == j.entries;
    forall a ensures n.Balance(a) == EntriesNet(n.entries, a) {
      assert n.Balance(a) == BalanceIn(n.signed, a) && j.Balance(a) == BalanceIn(j.signed, a);
    }
  }

  lemma AppendKeepsAllBalanced(entries: seq<StoredEntry>, s: StoredEntry)
    requires AllBalanced(entries) && BalancedLines(s.entry.postings)
    ensures AllBalanced(entries + [s])
  {
  }

  lemma PostKeepsJournalOk(j: JournalState, e: Entry)
    requires JournalOk(j) && BalancedLines(e.postings) && Post(j, e).1.Ok?
    ensures JournalOk(Post(j, e).0)
    ensures e.key in j.byKey ==> Post(j, e).0 == j
    ensures e.key !in j.byKey ==> Post(j, e).0.entries == j.entries + [StoredEntry(|j.entries| + 1, e)]
  {
    if e.key !in j.byKey {
      FreshPost(j, e);
      var n := Post(j, e).0;
      AppendKeepsSequential(j, n, e);
      AppendKeepsBalances(j, n, e, j.nextId + 1);
      AppendKeepsAllBalanced(j.entries, StoredEntry(j.nextId + 1, e));
    }
  }

  /** In every overflow-free run of balanced entries from the empty journal the running balances equal
      the fold over the stored entries, ids are 1..n and each key is stored once. */
  lemma {:induction false} EveryRunRefinesEntries(es: seq<Entry>)
    requires forall i :: 0 <= i < |es| ==> BalancedLines(es[i].postings)
    requires PostAll(EMPTY_JOURNAL, es).1
    ensures JournalOk(PostAll(EMPTY_JOURNAL, es).0)
  {
    if es != [] {
      var init := es[..|es| - 1];
      EveryRunRefinesEntries(init);
      PostKeepsJournalOk(PostAll(EMPTY_JOURNAL, init).0, es[|es| - 1]);
    }
  }

  function EntryList(stored: seq<StoredEntry>): seq<Entry> {
    seq(|stored|, i requires 0 <= i < |stored| => stored[i].entry)
  }

  lemma PostAllSnoc(j: JournalState, es: seq<Entry>, e: Entry)
    ensures PostAll(j, es + [e]) == (var (p, ok) := PostAll(j, es); var (n, r) := Post(p, e); (n, ok && r.Ok?))
  {
    assert (es + [e])[..|es|] == es;
  }

  lemma RebuildAfterPost(j: JournalState, e: Entry)
    requires JournalOk(j) && BalancedLines(e.postings) && Post(j, e).1.Ok?
    requires PostAll(EMPTY_JOURNAL, EntryList(j.entries)) == (j, true)
    ensures PostAll(EMPTY_JOURNAL, EntryList(Post(j, e).0.entries)) == (Post(j, e).0, true)
  {
    if e.key !in j.byKey {
      PostAllSnoc(EMPTY_JOURNAL, EntryList(j.entries), e);
      assert EntryList(Post(j, e).0.entries) == EntryList(j.entries) + [e];
    }
  }

  /** Replaying the stored entries of any overflow-free run rebuilds the same journal, ids included. */
  lemma {:induction false} ReplayRebuilds(es: seq<Entry>)
    requires forall i :: 0 <= i < |es| ==> BalancedLines(es[i].postings)
    requires PostAll(EMPTY_JOURNAL, es).1
    ensures PostAll(EMPTY_JOURNAL, EntryList(PostAll(EMPTY_JOURNAL, es).0.entries)) == (PostAll(EMPTY_JOURNAL, es).0, true)
  {
    if es == [] {
      assert EntryList([]) == [];
    } else {
      var init, last := es[..|es| - 1], es[|es| - 1];
      ReplayRebuilds(init);
      EveryRunRefinesEntries(init);
      RebuildAfterPost(PostAll(EMPTY_JOURNAL, init).0, last);
    }
  }

  // ----- all balances sum to zero

  function SumDelta(lines: seq<Posting>): int {
    if lines == [] then 0 else lines[0].Delta() + SumDelta(lines[1..])
  }

  lemma {:induction false} SumDeltaIsDebitMinusCredit(lines: seq<Posting>)
    ensures SumDelta(lines) == DebitTotal(lines) - CreditTotal(lines)
    decreases |lines|
  {
    if lines != [] { SumDeltaIsDebitMinusCredit(lines[1..]); }
  }

  ghost function TotalOf(signed: map<LedgerAccount, int>): int {
    SetSum(signed.Keys, a => BalanceIn(signed, a))
  }

  lemma TotalAfterUpdate(signed: map<LedgerAccount, int>, a: LedgerAccount, v: int)
    ensures TotalOf(signed[a := v]) == TotalOf(signed) - BalanceIn(signed, a) + v
  {
    var next := signed[a := v];
    SetSumTake(next.Keys, x => BalanceIn(next, x), a);
    SetSumSame(next.Keys - {a}, x => BalanceIn(next, x), x => BalanceIn(signed, x));
    if a in signed {
      assert next.Keys == signed.Keys;
      SetSumTake(signed.Keys, x => BalanceIn(signed, x), a);
    } else {
      assert next.Keys - {a} == signed.Keys;
    }
  }

  lemma {:induction false} PostLinesTotal(signed: map<LedgerAccount, int>, lines: seq<Posting>)
    requires PostLines(signed, lines).1
    ensures TotalOf(PostLines(signed, lines).0) == TotalOf(signed) + SumDelta(lines)
    decreases |lines|
  {
    if lines != [] {
      var p := lines[0];
      TotalAfterUpdate(signed, p.account, BalanceIn(signed, p.account) + p.Delta());
      PostLinesTotal(signed[p.account := BalanceIn(signed, p.account) + p.Delta()], lines[1..]);
    }
  }

  /** In every overflow-free run all running balances sum to zero. */
  lemma {:induction false} BalancesSumToZero(es: seq<Entry>)
    requires forall i :: 0 <= i < |es| ==> BalancedLines(es[i].postings)
    requires PostAll(EMPTY_JOURNAL, es).1
    ensures TotalOf(PostAll(EMPTY_JOURNAL, es).0.signed) == 0
  {
    if es != [] {
      var init, last := es[..|es| - 1], es[|es| - 1];
      BalancesSumToZero(init);
      var p := PostAll(EMPTY_JOURNAL, init).0;
      if last.key !in p.byKey {
        PostLinesTotal(p.signed, last.postings);
        SumDeltaIsDebitMinusCredit(last.postings);
      }
    }
  }

  // ----- trial balance

  /** Per-currency totals of one side over the lines, keys included only when some line has them. */
  function SideTotals(totals: map<Currency, int>, lines: seq<Posting>, side: Direction): map<Currency, int> {
    if lines == [] then totals
    else
      var p := lines[|lines| - 1];
      var before := SideTotals(totals, lines[..|lines| - 1], side);
      if p.direction != side then before
      else before[p.amount.currency := (if p.amount.currency in before then before[p.amount.currency] else 0) + p.amount.minor]
  }

  function JournalTotals(entries: seq<StoredEntry>, side: Direction): map<Currency, int> {
    if entries == [] then map[]
    else SideTotals(JournalTotals(entries[..|entries| - 1], side), entries[|entries| - 1].entry.postings, side)
  }

  predicate TrialBalanceOk(j: JournalState) {
    JournalTotals(j.entries, Debit) == JournalTotals(j.entries, Credit)
  }

  function SideTotal(lines: seq<Posting>, side: Direction): int {
    if side.Debit? then DebitTotal(lines) else CreditTotal(lines)
  }

  lemma {:induction false} SideTotalSnoc(lines: seq<Posting>, side: Direction)
    requires lines != []
    ensures var p := lines[|lines| - 1];
      SideTotal(lines, side) == SideTotal(lines[..|lines| - 1], side) + (if p.direction == side then p.amount.minor else 0)
    decreases |lines|
  {
    if |lines| > 1 {
      SideTotalSnoc(lines[1..], side);
      assert lines[1..][..|lines| - 2] == lines[..|lines| - 1][1..];
    } else {
      assert lines[1..] == [] && lines[..0] == [];
    }
  }

  lemma {:induction false} SideTotalsMeaning(totals: map<Currency, int>, lines: seq<Posting>, side: Direction, c: Currency)
    requires Positive(lines) && AllIn(lines, c)
    ensures SideTotal(lines, side) >= 0
    ensures SideTotals(totals, lines, side) ==
            if SideTotal(lines, side) == 0 then totals
            else totals[c := (if c in totals then totals[c] else 0) + SideTotal(lines, side)]
    decreases |lines|
  {
    if lines != [] {
      SideTotalSnoc(lines, side);
      SideTotalsMeaning(totals, lines[..|lines| - 1], side, c);
    }
  }

  /** The trial balance holds, key sets included, whenever every stored entry is balanced. */
  lemma {:induction false} TrialBalanceHolds(entries: seq<StoredEntry>)
    requires AllBalanced(entries)
    ensures JournalTotals(entries, Debit) == JournalTotals(entries, Credit)
  {
    if entries != [] {
      var init, lines := entries[..|entries| - 1], entries[|entries| - 1].entry.postings;
      TrialBalanceHolds(init);
      var c := lines[0].amount.currency;
      assert BalancedLines(lines);
      assert AllIn(lines, c);
      SideTotalsMeaning(JournalTotals(init, Debit), lines, Debit, c);
      SideTotalsMeaning(JournalTotals(init, Credit), lines, Credit, c);
    }
  }

  lemma TrialBalanceInEveryRun(es: seq<Entry>)
    requires forall i :: 0 <= i < |es| ==> BalancedLines(es[i].postings)
    requires PostAll(EMPTY_JOURNAL, es).1
    ensures TrialBalanceOk(PostAll(EMPTY_JOURNAL, es).0)
  {
    EveryRunRefinesEntries(es);
    TrialBalanceHolds(PostAll(EMPTY_JOURNAL, es).0.entries);
  }

  // ----- reversal

  lemma {:induction false} FlipAllTotals(lines: seq<Posting>)
    ensures |FlipAll(lines)| == |lines|
    ensures forall i :: 0 <= i < |lines| ==> FlipAll(lines)[i] == Flip(lines[i])
    ensures DebitTotal(FlipAll(lines)) == CreditTotal(lines) && CreditTotal(FlipAll(lines)) == DebitTotal(lines)
    ensures forall a :: Net(FlipAll(lines), a) == -Net(lines, a)
    decreases |lines|
  {
    if lines != [] {
      FlipAllTotals(lines[1..]);
      assert FlipAll(lines)[1..] == FlipAll(lines[1..]);
    }
  }

  /** A balanced entry can always be reversed under a non-empty key, and posting an entry and then
      its reverse under fresh keys restores every balance. */
  lemma ReverseRestoresBalances(j: JournalState, e: Entry, key: Key)
    requires BalancedLines(e.postings) && FitsI128(DebitTotal(e.postings)) && !key.IsEmpty()
    requires key != e.key && e.key !in j.byKey && key !in j.byKey
    ensures Reverse(e, key).Ok?
    ensures var r := Reverse(e, key).value; var (j1, o1) := Post(j, e); var (j2, o2) := Post(j1, r);
      o1.Ok? && o2.Ok? ==> forall a :: j2.Balance(a) == j.Balance(a)
  {
    FlipAllTotals(e.postings);
    assert BalancedLines(FlipAll(e.postings)) by {
      assert Positive(FlipAll(e.postings)) && OneCurrency(FlipAll(e.postings));
    }
    BuildExactlyBalanced(key, e.causation, e.correlation, FlipAll(e.postings));
    var r := Reverse(e, key).value;
    var (j1, o1) := Post(j, e);
    var (j2, o2) := Post(j1, r);
    if o1.Ok? && o2.Ok? {
      PostLinesNet(j.signed, e.postings);
      PostLinesNet(j1.signed, r.postings);
      forall a ensures j2.Balance(a) == j.Balance(a) {
        assert j2.Balance(a) == BalanceIn(j2.signed, a) && j.Balance(a) == BalanceIn(j.signed, a);
      }
    }
  }

  class Journal {
    var nextId: nat
    var entries: seq<StoredEntry>
    var byKey: map<Key, nat>
    var signed: map<LedgerAccount, int>

    ghost function View(): JournalState
      reads this
    {
      JournalState(nextId, entries, byKey, signed)
    }

    constructor ()
      ensures View() == EMPTY_JOURNAL
    {
      nextId, entries, byKey, signed := 0, [], map[], map[];
    }

    method Clear()
      modifies this
      ensures View() == EMPTY_JOURNAL
    {
      nextId, entries, byKey, signed := 0, [], map[], map[];
    }

    method Append(entry: Entry) returns (r: Result<PostOutcome, LedgerError>)
      modifies this
      ensures (View(), r) == Post(old(View()), entry)
    {
      if entry.key in byKey { return Ok(Duplicate(byKey[entry.key])); }
      if nextId >= U64_MAX { return Err(MoneyOverflow); }
      nextId := nextId + 1;
      var i := 0;
      while i < |entry.postings|
        modifies this`signed
        invariant 0 <= i <= |entry.postings|
        invariant PostLines(signed, entry.postings[i..]) == PostLines(old(signed), entry.postings)
      {
        var p := entry.postings[i];
        assert entry.postings[i..][0] == p && entry.postings[i..][1..] == entry.postings[i + 1..];
        var delta := match p.direction case Debit => p.amount.minor case Credit => -p.amount.minor;
        if !FitsI128(delta) { return Err(MoneyOverflow); }
        ghost var untouched := signed;
        if p.account !in signed { signed := signed[p.account := 0]; }
        assert signed == untouched[p.account := BalanceIn(untouched, p.account)];
        assert signed[p.account := signed[p.account] + delta] == untouched[p.account := signed[p.account] + delta];
        if !FitsI128(signed[p.account] + delta) { return Err(MoneyOverflow); }
        signed := signed[p.account := signed[p.account] + delta];
        i := i + 1;
      }
      byKey := byKey[entry.key := nextId];
      entries := entries + [StoredEntry(nextId, entry)];
      return Ok(Posted(nextId));
    }

    method SignedBalance(a: LedgerAccount) returns (b: int)
      ensures b == View().Balance(a)
    {
      if a in signed { b := signed[a]; } else { b := 0; }
    }

    /** The trial balance as the source computes it, with two accumulating maps. */
    method CheckTrialBalance() returns (ok: bool)
      ensures ok == TrialBalanceOk(View())
    {
      var debit: map<Currency, int> := map[];
      var credit: map<Currency, int> := map[];
      var i := 0;
      while i < |entries|
        invariant 0 <= i <= |entries|
        invariant debit == JournalTotals(entries[..i], Debit)
        invariant credit == JournalTotals(entries[..i], Credit)
      {
        var lines := entries[i].entry.postings;
        assert entries[..i + 1][..i] == entries[..i];
        var k := 0;
        while k < |lines|
          invariant 0 <= k <= |lines|
          invariant debit == SideTotals(JournalTotals(entries[..i], Debit), lines[..k], Debit)
          invariant credit == SideTotals(JournalTotals(entries[..i], Credit), lines[..k], Credit)
        {
          var p := lines[k];
          var c := p.amount.currency;
          assert lines[..k + 1][..k] == lines[..k];
          if p.direction.Debit? {
            debit := debit[c := (if c in debit then debit[c] else 0) + p.amount.minor];
          } else {
            credit := credit[c := (if c in credit then credit[c] else 0) + p.amount.minor];
          }
          k := k + 1;
        }
        assert lines[..k] == lines;
        i := i + 1;
      }
      assert entries[..i] == entries;
      ok := debit == credit;
    }
  }
}
