/**
 * Consortium invoicing: an invoice addressed to a partner that has
 * consortium members is not posted itself; instead one invoice per member is
 * created, each carrying the member's share of every line, and the original
 * invoice is cancelled.
 */
module Consortium {
  import opened Wrappers
  import opened Dates

  datatype ConsortiumError =
    | ZeroDivision               // the distribution keys of a partner's relations sum to 0
    | NotDraft                   // an invoice to split is neither draft nor open
    | NoSaleJournal(company: nat)  // no journal on the invoice and no sale journal for the company
    | MissingInvoiceDate         // a line's analytic invoice has a period but neither date is set

  /** A company with its currency and the default account of its WIP journal. */
  datatype Company = Company(id: nat, currency: Option<nat>, wipAccount: Option<nat>)

  /**
   * A partner as far as member invoicing reads it; `invoiceAddress` is the
   * invoice contact its address lookup yields.
   */
  datatype Partner = Partner(
    id: nat,
    company: Option<Company>,
    invoiceAddress: nat,
    user: Option<nat>,
    pricelistCurrency: Option<nat>)

  /** A partner relation: `left` relates to `right` with a distribution key. */
  datatype Relation = Relation(left: nat, right: Partner, relType: nat, key: real)

  /** One entry of the members dictionary: a member and its share. */
  datatype Share = Share(partner: Partner, share: real)

  // ---------------------------------------------------------------------------
  // get_members_sharing_key

  /** The search for the relations of one left partner and one relation type, in table order. */
  function Matching(table: seq<Relation>, left: nat, relType: nat): seq<Relation>
    decreases |table|
  {
    if |table| == 0 then []
    else
      var r := table[|table| - 1];
      Matching(table[..|table| - 1], left, relType) + (if r.left == left && r.relType == relType then [r] else [])
  }

  /** The search finds exactly the relations of that left partner and type. */
  lemma {:induction false} MatchingMembers(table: seq<Relation>, left: nat, relType: nat, r: Relation)
    ensures r in Matching(table, left, relType) <==> r in table && r.left == left && r.relType == relType
    decreases |table|
  {
    if |table| > 0 {
      var init := table[..|table| - 1];
      MatchingMembers(init, left, relType, r);
      assert table == init + [table[|table| - 1]];
    }
  }

  /** The sum of the distribution keys. */
  function KeyTotal(rels: seq<Relation>): real
    decreases |rels|
  {
    if |rels| == 0 then 0.0 else KeyTotal(rels[..|rels| - 1]) + rels[|rels| - 1].key
  }

  /** The share recorded for a partner in the dictionary, if any. */
  function Lookup(shares: seq<Share>, p: Partner): Option<real>
    decreases |shares|
  {
    if |shares| == 0 then None
    else if shares[0].partner == p then Some(shares[0].share)
    else Lookup(shares[1..], p)
  }

  /** No partner has two entries. */
  predicate Distinct(shares: seq<Share>)
    decreases |shares|
  {
    |shares| == 0 || (Lookup(shares[1..], shares[0].partner).None? && Distinct(shares[1..]))
  }

  /** `dict.update` with one entry: an existing key keeps its place and takes the new value, a new key goes last. */
  function Put(shares: seq<Share>, p: Partner, v: real): seq<Share>
    decreases |shares|
  {
    if |shares| == 0 then [Share(p, v)]
    else if shares[0].partner == p then [Share(p, v)] + shares[1..]
    else [shares[0]] + Put(shares[1..], p, v)
  }

  /** The dictionary built from the relations in order, each key divided by `total`. */
  function SharesOf(rels: seq<Relation>, total: real): seq<Share>
    requires total != 0.0
    decreases |rels|
  {
    if |rels| == 0 then []
    else
      var r := rels[|rels| - 1];
      Put(SharesOf(rels[..|rels| - 1], total), r.right, r.key / total)
  }

  /**
   * What `get_members_sharing_key` returns: no relations give an empty
   * dictionary; relations whose keys sum to 0 divide by zero.
   */
  function SharingKey(table: seq<Relation>, left: nat, relType: nat): Result<seq<Share>, ConsortiumError> {
    var rels := Matching(table, left, relType);
    if |rels| == 0 then Success([])
    else if KeyTotal(rels) == 0.0 then Failure(ZeroDivision)
    else Success(SharesOf(rels, KeyTotal(rels)))
  }

  /** `get_members_sharing_key`: sums the keys, then fills the dictionary relation by relation. */
  method MembersSharingKey(table: seq<Relation>, left: nat, relType: nat) returns (r: Result<seq<Share>, ConsortiumError>)
    ensures r == SharingKey(table, left, relType)
  {
    var rels := Matching(table, left, relType);
    var total := KeyTotal(rels);
    var members: seq<Share> := [];
    var i := 0;
    while i < |rels|
      invariant 0 <= i <= |rels|
      invariant total == 0.0 ==> i == 0 && members == []
      invariant total != 0.0 ==> members == SharesOf(rels[..i], total)
    {
      if total == 0.0 {
        return Failure(ZeroDivision);
      }
      assert rels[..i + 1][..i] == rels[..i];
      members := Put(members, rels[i].right, rels[i].key / total);
      i := i + 1;
    }
    assert rels[..i] == rels;
    return Success(members);
  }

  // ---------------------------------------------------------------------------
  // Properties of the members dictionary

  lemma {:induction false} PutLookup(shares: seq<Share>, p: Partner, v: real, q: Partner)
    ensures Lookup(Put(shares, p, v), q) == if q == p then Some(v) else Lookup(shares, q)
    decreases |shares|
  {
    if |shares| > 0 && shares[0].partner != p {
      PutLookup(shares[1..], p, v, q);
      assert Put(shares, p, v)[1..] == Put(shares[1..], p, v);
    } else if |shares| > 0 {
      assert Put(shares, p, v)[1..] == shares[1..];
    }
  }

  lemma {:induction false} PutDistinct(shares: seq<Share>, p: Partner, v: real)
    requires Distinct(shares)
    ensures Distinct(Put(shares, p, v))
    decreases |shares|
  {
    if |shares| > 0 && shares[0].partner != p {
      PutDistinct(shares[1..], p, v);
      PutLookup(shares[1..], p, v, shares[0].partner);
      assert Put(shares, p, v)[1..] == Put(shares[1..], p, v);
    } else if |shares| > 0 {
      assert Put(shares, p, v)[1..] == shares[1..];
    }
  }

  /** A new key goes at the end. */
  lemma {:induction false} PutNew(shares: seq<Share>, p: Partner, v: real)
    requires Lookup(shares, p).None?
    ensures Put(shares, p, v) == shares + [Share(p, v)]
    decreases |shares|
  {
    if |shares| > 0 {
      PutNew(shares[1..], p, v);
      assert shares == [shares[0]] + shares[1..];
    }
  }

  /** The dictionary has an entry exactly for the right partners of the relations. */
  lemma {:induction false} SharesOfPartners(rels: seq<Relation>, total: real, p: Partner)
    requires total != 0.0
    ensures Lookup(SharesOf(rels, total), p).Some? <==> exists i :: 0 <= i < |rels| && rels[i].right == p
    decreases |rels|
  {
    if |rels| > 0 {
      var init := rels[..|rels| - 1];
      var r := rels[|rels| - 1];
      SharesOfPartners(init, total, p);
      PutLookup(SharesOf(init, total), r.right, r.key / total, p);
      if exists i :: 0 <= i < |init| && init[i].right == p {
        var i :| 0 <= i < |init| && init[i].right == p;
        assert rels[i] == init[i];
      }
      if exists i :: 0 <= i < |rels| && rels[i].right == p {
        var i :| 0 <= i < |rels| && rels[i].right == p;
        if i < |init| {
          assert init[i] == rels[i];
        }
      }
    }
  }

  /** A member's share is the key of its last relation divided by the total. */
  lemma {:induction false} ShareOfMember(rels: seq<Relation>, total: real, i: int)
    requires total != 0.0 && 0 <= i < |rels|
    requires forall j :: i < j < |rels| ==> rels[j].right != rels[i].right
    ensures Lookup(SharesOf(rels, total), rels[i].right) == Some(rels[i].key / total)
    decreases |rels|
  {
    var init := rels[..|rels| - 1];
    var r := rels[|rels| - 1];
    PutLookup(SharesOf(init, total), r.right, r.key / total, rels[i].right);
    if i < |init| {
      assert init[i] == rels[i];
      ShareOfMember(init, total, i);
    }
  }

  /** Each member appears once in the dictionary. */
  lemma {:induction false} SharesOfDistinct(rels: seq<Relation>, total: real)
    requires total != 0.0
    ensures Distinct(SharesOf(rels, total))
    decreases |rels|
  {
    if |rels| > 0 {
      var r := rels[|rels| - 1];
      SharesOfDistinct(rels[..|rels| - 1], total);
      PutDistinct(SharesOf(rels[..|rels| - 1], total), r.right, r.key / total);
    }
  }

  /** The sum of the shares. */
  function ShareTotal(shares: seq<Share>): real
    decreases |shares|
  {
    if |shares| == 0 then 0.0 else ShareTotal(shares[..|shares| - 1]) + shares[|shares| - 1].share
  }

  /** No two relations have the same right partner. */
  predicate DistinctRights(rels: seq<Relation>) {
    forall i, j :: 0 <= i < j < |rels| ==> rels[i].right != rels[j].right
  }

  lemma {:induction false} ShareTotalScaled(rels: seq<Relation>, total: real)
    requires total != 0.0 && DistinctRights(rels)
    ensures ShareTotal(SharesOf(rels, total)) == KeyTotal(rels) / total
    decreases |rels|
  {
    if |rels| > 0 {
      var init := rels[..|rels| - 1];
      var r := rels[|rels| - 1];
      assert DistinctRights(init) by {
        forall i, j | 0 <= i < j < |init|
          ensures init[i].right != init[j].right
        {
          assert init[i] == rels[i] && init[j] == rels[j];
        }
      }
      ShareTotalScaled(init, total);
      assert forall i :: 0 <= i < |init| ==> init[i] == rels[i];
      SharesOfPartners(init, total, r.right);
      PutNew(SharesOf(init, total), r.right, r.key / total);
      var s := SharesOf(init, total) + [Share(r.right, r.key / total)];
      assert s[..|s| - 1] == SharesOf(init, total);
      AddQuotients(KeyTotal(init), r.key, total);
    }
  }

  lemma {:induction false} AddQuotients(a: real, b: real, t: real)
    requires t != 0.0
    ensures a / t + b / t == (a + b) / t
  {
  }

  lemma {:induction false} DivideBySelf(a: real, b: real)
    requires a == b && b != 0.0
    ensures a / b == 1.0
  {
  }

  /** With each member related once and a nonzero total, the shares sum to one. */
  lemma {:induction false} SharesSumToOne(table: seq<Relation>, left: nat, relType: nat)
    requires SharingKey(table, left, relType).Success?
    requires DistinctRights(Matching(table, left, relType))
    requires |Matching(table, left, relType)| > 0
    ensures ShareTotal(SharingKey(table, left, relType).value) == 1.0
  {
    var rels := Matching(table, left, relType);
    var total := KeyTotal(rels);
    assert total != 0.0 && SharingKey(table, left, relType).value == SharesOf(rels, total);
    ShareTotalScaled(rels, total);
    DivideBySelf(KeyTotal(rels), total);
  }

  /** A partner without relations gets an empty dictionary and never an error. */
  lemma {:induction false} SharingKeyNoRelations(table: seq<Relation>, left: nat, relType: nat)
    requires forall r :: r in table ==> r.left != left || r.relType != relType
    ensures SharingKey(table, left, relType) == Success([])
  {
    MatchingNone(table, left, relType);
  }

  lemma {:induction false} MatchingNone(table: seq<Relation>, left: nat, relType: nat)
    requires forall r :: r in table ==> r.left != left || r.relType != relType
    ensures Matching(table, left, relType) == []
    decreases |table|
  {
    if |table| > 0 {
      var init := table[..|table| - 1];
      assert forall i :: 0 <= i < |init| ==> init[i] == table[i];
      MatchingNone(init, left, relType);
    }
  }

  /** The dictionary is empty exactly when the search finds no relation. */
  lemma {:induction false} SharingKeyEmpty(table: seq<Relation>, left: nat, relType: nat)
    requires SharingKey(table, left, relType).Success?
    ensures |SharingKey(table, left, relType).value| == 0 <==> |Matching(table, left, relType)| == 0
  {
    var rels := Matching(table, left, relType);
    if |rels| > 0 {
      SharesOfPartners(rels, KeyTotal(rels), rels[0].right);
    }
  }

  // ---------------------------------------------------------------------------
  // _prepare_member_invoice_line

  /** The analytic invoice a line comes from: its period's start date, its own date and its invoice's date. */
  datatype AnalyticInvoice = AnalyticInvoice(periodStart: Option<Date>, date: Option<Date>, invoiceDate: Option<Date>)

  datatype Product = Product(id: nat, wipAccount: Option<nat>)

  /** An invoice line of the invoice being split. */
  datatype InvoiceLine = InvoiceLine(
    name: string,
    product: Option<Product>,
    quantity: real,
    uom: Option<nat>,
    discount: real,
    account: Option<nat>,
    analyticTags: seq<nat>,
    priceUnit: real,
    analyticDistribution: map<nat, real>,
    psInvoice: Option<AnalyticInvoice>,
    company: Company)

  /** The values of one member invoice line. */
  datatype MemberLine = MemberLine(
    name: string,
    moveId: nat,
    product: Option<nat>,
    quantity: real,
    uom: Option<nat>,
    discount: real,
    account: Option<nat>,
    analyticTags: seq<nat>,
    priceUnit: real,
    analyticDistribution: map<nat, real>)

  /** `strftime("%Y-%m")` of two dates agree. */
  predicate SameMonth(a: Date, b: Date) {
    a.year == b.year && a.month == b.month
  }

  /** The date the WIP rule compares: the analytic invoice's date, else its invoice's date. */
  function InvoiceDateOf(ai: AnalyticInvoice): Option<Date> {
    if ai.date.Some? then ai.date else ai.invoiceDate
  }

  /** The WIP account: the product's, else the default account of the company's WIP journal. */
  function WipAccount(line: InvoiceLine): Option<nat> {
    if line.product.Some? && line.product.value.wipAccount.Some? then line.product.value.wipAccount
    else line.company.wipAccount
  }

  /** The line is invoiced in another month than its invoicing period starts in. */
  predicate OutsidePeriod(line: InvoiceLine) {
    line.psInvoice.Some? && line.psInvoice.value.periodStart.Some? &&
    InvoiceDateOf(line.psInvoice.value).Some? &&
    !SameMonth(InvoiceDateOf(line.psInvoice.value).value, line.psInvoice.value.periodStart.value)
  }

  function ProductId(p: Option<Product>): Option<nat> {
    if p.Some? then Some(p.value.id) else None
  }

  /** `_prepare_member_invoice_line`: the line for member invoice `invoiceId` at share `share`. */
  function PrepareMemberInvoiceLine(line: InvoiceLine, invoiceId: nat, share: real): Result<MemberLine, ConsortiumError>
  {
    var copied := MemberLine(line.name, invoiceId, ProductId(line.product), line.quantity, line.uom,
                             line.discount, line.account, line.analyticTags, line.priceUnit * share,
                             line.analyticDistribution);
    if line.psInvoice.None? || line.psInvoice.value.periodStart.None? then Success(copied)
    else
      var invoiceDate := InvoiceDateOf(line.psInvoice.value);
      if invoiceDate.None? then Failure(MissingInvoiceDate)
      else if SameMonth(invoiceDate.value, line.psInvoice.value.periodStart.value) then Success(copied)
      else Success(copied.(account := WipAccount(line)))
  }

  /**
   * A member line copies the line, points at the member invoice and scales the
   * unit price by the share; its account becomes the WIP account exactly when
   * the line is invoiced outside its period's month. A line with a period but
   * no date to compare is an error.
   */
  lemma {:induction false} MemberLineOf(line: InvoiceLine, invoiceId: nat, share: real)
    ensures var r := PrepareMemberInvoiceLine(line, invoiceId, share);
      (r.Failure? <==>
        line.psInvoice.Some? && line.psInvoice.value.periodStart.Some? && InvoiceDateOf(line.psInvoice.value).None?) &&
      (r.Failure? ==> r.error == MissingInvoiceDate)
    ensures var r := PrepareMemberInvoiceLine(line, invoiceId, share);
      r.Success? ==>
        r.value.name == line.name && r.value.moveId == invoiceId && r.value.product == ProductId(line.product) &&
        r.value.quantity == line.quantity && r.value.uom == line.uom && r.value.discount == line.discount &&
        r.value.analyticTags == line.analyticTags && r.value.analyticDistribution == line.analyticDistribution &&
        r.value.priceUnit == line.priceUnit * share &&
        (OutsidePeriod(line) ==> r.value.account == WipAccount(line)) &&
        (!OutsidePeriod(line) ==> r.value.account == line.account)
  {
  }

  /** Puts `xs` in front of a successful list; a failure stays the failure. */
  function Prepend<T>(xs: seq<T>, r: Result<seq<T>, ConsortiumError>): Result<seq<T>, ConsortiumError> {
    match r
    case Success(ys) => Success(xs + ys)
    case Failure(e) => Failure(e)
  }

  lemma {:induction false} PrependNothing<T>(r: Result<seq<T>, ConsortiumError>)
    ensures Prepend([], r) == r
  {
    if r.Success? {
      assert [] + r.value == r.value;
    }
  }

  lemma {:induction false} PrependTwice<T>(xs: seq<T>, ys: seq<T>, r: Result<seq<T>, ConsortiumError>)
    ensures Prepend(xs, Prepend(ys, r)) == Prepend(xs + ys, r)
  {
    if r.Success? {
      assert xs + (ys + r.value) == (xs + ys) + r.value;
    }
  }

  /** The member lines of all the invoice's lines, in order; the first failing line fails them all. */
  function MemberLines(lines: seq<InvoiceLine>, invoiceId: nat, share: real): Result<seq<MemberLine>, ConsortiumError>
    decreases |lines|
  {
    if |lines| == 0 then Success([])
    else match PrepareMemberInvoiceLine(lines[0], invoiceId, share)
      case Failure(e) => Failure(e)
      case Success(l) => Prepend([l], MemberLines(lines[1..], invoiceId, share))
  }

  lemma {:induction false} MemberLinesShape(lines: seq<InvoiceLine>, invoiceId: nat, share: real)
    requires MemberLines(lines, invoiceId, share).Success?
    ensures |MemberLines(lines, invoiceId, share).value| == |lines|
    ensures forall k :: 0 <= k < |lines| ==>
      PrepareMemberInvoiceLine(lines[k], invoiceId, share) == Success(MemberLines(lines, invoiceId, share).value[k])
    decreases |lines|
  {
    if |lines| > 0 {
      MemberLinesShape(lines[1..], invoiceId, share);
      var ls := MemberLines(lines, invoiceId, share).value;
      assert ls[1..] == MemberLines(lines[1..], invoiceId, share).value;
      forall k | 1 <= k < |lines|
        ensures PrepareMemberInvoiceLine(lines[k], invoiceId, share) == Success(ls[k])
      {
        assert lines[k] == lines[1..][k - 1] && ls[k] == ls[1..][k - 1];
      }
    }
  }

  // ---------------------------------------------------------------------------
  // _prepare_member_invoice

  datatype MoveState = Draft | Open | Posted | Cancel

  datatype Journal = Journal(id: nat, company: nat, isSale: bool)

  /** An invoice (`account.move`) as far as splitting reads it. */
  datatype Move = Move(
    id: nat,
    name: string,
    partnerId: nat,
    state: MoveState,
    journal: Option<nat>,
    company: Company,
    invoiceDate: Option<Date>,
    description: string,
    customLayout: Option<nat>,
    customFooter: string,
    customHeader: string,
    lines: seq<InvoiceLine>,
    parent: Option<nat>)

  /** The values a member invoice is created with; every member invoice is a customer invoice. */
  datatype InvoiceVals = InvoiceVals(
    reference: string,
    partner: nat,
    currency: Option<nat>,
    journal: nat,
    invoiceDate: Option<Date>,
    company: nat,
    parent: nat,
    user: Option<nat>,
    description: string,
    customLayout: Option<nat>,
    customFooter: string,
    customHeader: string)

  /** The search for the first sale journal of a company. */
  function FirstSaleJournal(journals: seq<Journal>, company: nat): Option<nat>
    decreases |journals|
  {
    if |journals| == 0 then None
    else if journals[0].isSale && journals[0].company == company then Some(journals[0].id)
    else FirstSaleJournal(journals[1..], company)
  }

  /** The search finds a sale journal of the company whenever there is one. */
  lemma {:induction false} FirstSaleJournalFinds(journals: seq<Journal>, company: nat)
    ensures FirstSaleJournal(journals, company).None? <==>
      forall j :: j in journals ==> !(j.isSale && j.company == company)
    ensures FirstSaleJournal(journals, company).Some? ==>
      exists j :: j in journals && j.isSale && j.company == company && j.id == FirstSaleJournal(journals, company).value
    decreases |journals|
  {
    if |journals| > 0 {
      FirstSaleJournalFinds(journals[1..], company);
      assert journals == [journals[0]] + journals[1..];
    }
  }

  /** The company of a member invoice: the member's company, else the invoice's. */
  function MemberCompany(move: Move, partner: Partner): Company {
    if partner.company.Some? then partner.company.value else move.company
  }

  /** `_prepare_member_invoice`: the values of the member invoice of `partner`. */
  function PrepareMemberInvoice(move: Move, partner: Partner, journals: seq<Journal>): Result<InvoiceVals, ConsortiumError>
  {
    var company := MemberCompany(move, partner);
    var journal := if move.journal.Some? then move.journal else FirstSaleJournal(journals, company.id);
    if journal.None? then Failure(NoSaleJournal(company.id))
    else
      var currency := if partner.pricelistCurrency.Some? then partner.pricelistCurrency else company.currency;
      Success(InvoiceVals(move.name, partner.invoiceAddress, currency, journal.value, move.invoiceDate,
                          company.id, move.id, partner.user, move.description, move.customLayout,
                          move.customFooter, move.customHeader))
  }

  /**
   * The "define a sale journal" error is raised exactly when the invoice has
   * no journal and the member's company has no sale journal; otherwise the
   * member invoice points at the split invoice, takes the invoice's journal
   * or else a sale journal of the member's company, and is addressed to the
   * member's invoice contact.
   */
  lemma {:induction false} MemberInvoiceVals(move: Move, partner: Partner, journals: seq<Journal>)
    ensures var r := PrepareMemberInvoice(move, partner, journals);
      (r.Failure? <==>
        move.journal.None? &&
        forall j :: j in journals ==> !(j.isSale && j.company == MemberCompany(move, partner).id)) &&
      (r.Failure? ==> r.error == NoSaleJournal(MemberCompany(move, partner).id))
    ensures var r := PrepareMemberInvoice(move, partner, journals);
      r.Success? ==>
        r.value.parent == move.id && r.value.company == MemberCompany(move, partner).id &&
        (move.journal.Some? ==> r.value.journal == move.journal.value) &&
        (move.journal.None? ==>
          exists j :: j in journals && j.isSale && j.company == MemberCompany(move, partner).id && j.id == r.value.journal) &&
        r.value.partner == partner.invoiceAddress && r.value.reference == move.name &&
        r.value.invoiceDate == move.invoiceDate && r.value.user == partner.user
  {
    FirstSaleJournalFinds(journals, MemberCompany(move, partner).id);
  }

  // ---------------------------------------------------------------------------
  // _create_member_invoice

  /** A created member invoice: its new id, the member it is for, its values and its lines. */
  datatype MemberInvoice = MemberInvoice(id: nat, member: Partner, vals: InvoiceVals, lines: seq<MemberLine>)

  /** `_create_member_invoice` with `newId` the id the created invoice receives. */
  function CreateMemberInvoice(move: Move, partner: Partner, share: real, journals: seq<Journal>, newId: nat)
    : Result<MemberInvoice, ConsortiumError>
  {
    match PrepareMemberInvoice(move, partner, journals)
    case Failure(e) => Failure(e)
    case Success(vals) =>
      match MemberLines(move.lines, newId, share)
      case Failure(e) => Failure(e)
      case Success(ls) => Success(MemberInvoice(newId, partner, vals, ls))
  }

  /** The member invoices of one invoice, one per dictionary entry, numbered from `firstId`. */
  function CreatedFor(move: Move, shares: seq<Share>, journals: seq<Journal>, firstId: nat)
    : Result<seq<MemberInvoice>, ConsortiumError>
    decreases |shares|
  {
    if |shares| == 0 then Success([])
    else match CreateMemberInvoice(move, shares[0].partner, shares[0].share, journals, firstId)
      case Failure(e) => Failure(e)
      case Success(inv) => Prepend([inv], CreatedFor(move, shares[1..], journals, firstId + 1))
  }

  /** A created member invoice is the member's, points at the split invoice and scales each of its lines. */
  lemma {:induction false} CreatedInvoice(move: Move, partner: Partner, share: real, journals: seq<Journal>, newId: nat)
    requires CreateMemberInvoice(move, partner, share, journals, newId).Success?
    ensures CreateMemberInvoice(move, partner, share, journals, newId).value.id == newId
    ensures CreateMemberInvoice(move, partner, share, journals, newId).value.member == partner
    ensures CreateMemberInvoice(move, partner, share, journals, newId).value.vals.parent == move.id
    ensures |CreateMemberInvoice(move, partner, share, journals, newId).value.lines| == |move.lines|
    ensures forall k :: 0 <= k < |move.lines| ==>
      CreateMemberInvoice(move, partner, share, journals, newId).value.lines[k].priceUnit == move.lines[k].priceUnit * share &&
      CreateMemberInvoice(move, partner, share, journals, newId).value.lines[k].moveId == newId
  {
    MemberLinesShape(move.lines, newId, share);
    MemberInvoiceVals(move, partner, journals);
    var ls := MemberLines(move.lines, newId, share).value;
    forall k | 0 <= k < |move.lines|
      ensures ls[k].priceUnit == move.lines[k].priceUnit * share && ls[k].moveId == newId
    {
      MemberLineOf(move.lines[k], newId, share);
    }
  }

  /** The sum of the unit prices of line `k` over several member invoices. */
  function LinePriceSum(invs: seq<MemberInvoice>, k: nat): real
    requires forall j :: 0 <= j < |invs| ==> k < |invs[j].lines|
    decreases |invs|
  {
    if |invs| == 0 then 0.0 else LinePriceSum(invs[..|invs| - 1], k) + invs[|invs| - 1].lines[k].priceUnit
  }

  /** Line `k` of the `j`-th invoice carries the `j`-th share of `price`. */
  predicate ScaledAt(invs: seq<MemberInvoice>, shares: seq<Share>, price: real, k: nat) {
    |invs| == |shares| &&
    forall j :: 0 <= j < |invs| ==> k < |invs[j].lines| && invs[j].lines[k].priceUnit == price * shares[j].share
  }

  lemma {:induction false} ScaledAtCons(inv: MemberInvoice, rest: seq<MemberInvoice>, shares: seq<Share>, price: real, k: nat)
    requires |shares| > 0
    requires k < |inv.lines| && inv.lines[k].priceUnit == price * shares[0].share
    requires ScaledAt(rest, shares[1..], price, k)
    ensures ScaledAt([inv] + rest, shares, price, k)
  {
    var invs := [inv] + rest;
    forall j | 1 <= j < |invs|
      ensures k < |invs[j].lines| && invs[j].lines[k].priceUnit == price * shares[j].share
    {
      assert invs[j] == rest[j - 1] && shares[j] == shares[1..][j - 1];
    }
  }

  lemma {:induction false} LinePriceSumScaled(invs: seq<MemberInvoice>, shares: seq<Share>, price: real, k: nat)
    requires ScaledAt(invs, shares, price, k)
    ensures LinePriceSum(invs, k) == price * ShareTotal(shares)
    decreases |invs|
  {
    if |invs| > 0 {
      var n := |invs| - 1;
      assert ScaledAt(invs[..n], shares[..n], price, k) by {
        assert forall j :: 0 <= j < n ==> invs[..n][j] == invs[j] && shares[..n][j] == shares[j];
      }
      LinePriceSumScaled(invs[..n], shares[..n], price, k);
      assert invs[n].lines[k].priceUnit == price * shares[n].share;
      Distribute(price, ShareTotal(shares[..n]), shares[n].share);
    }
  }

  lemma {:induction false} Distribute(x: real, a: real, b: real)
    ensures x * a + x * b == x * (a + b)
  {
  }

  /** The member invoices of one invoice each carry their member's share of line `k`'s price. */
  lemma {:induction false} CreatedForPrices(move: Move, shares: seq<Share>, journals: seq<Journal>, firstId: nat, k: nat)
    requires CreatedFor(move, shares, journals, firstId).Success? && k < |move.lines|
    ensures ScaledAt(CreatedFor(move, shares, journals, firstId).value, shares, move.lines[k].priceUnit, k)
    decreases |shares|
  {
    if |shares| > 0 {
      var inv := CreateMemberInvoice(move, shares[0].partner, shares[0].share, journals, firstId).value;
      var rest := CreatedFor(move, shares[1..], journals, firstId + 1).value;
      CreatedInvoice(move, shares[0].partner, shares[0].share, journals, firstId);
      CreatedForPrices(move, shares[1..], journals, firstId + 1, k);
      assert CreatedFor(move, shares, journals, firstId).value == [inv] + rest;
      ScaledAtCons(inv, rest, shares, move.lines[k].priceUnit, k);
    }
  }

  /** Shares that sum to one split a price without loss. */
  lemma {:induction false} SplitPricesAddUp(invs: seq<MemberInvoice>, shares: seq<Share>, price: real, k: nat)
    requires ScaledAt(invs, shares, price, k)
    requires ShareTotal(shares) == 1.0
    ensures LinePriceSum(invs, k) == price
  {
    LinePriceSumScaled(invs, shares, price, k);
  }

  /**
   * Splitting keeps every line's price: over the member invoices of one
   * invoice whose members are each related once, the unit prices of a line
   * add up to the line's own unit price.
   */
  lemma {:induction false} MemberPricesAddUp(move: Move, table: seq<Relation>, relType: nat,
                                             journals: seq<Journal>, firstId: nat, k: nat)
    requires SharingKey(table, move.partnerId, relType).Success?
    requires |Matching(table, move.partnerId, relType)| > 0
    requires DistinctRights(Matching(table, move.partnerId, relType))
    requires CreatedFor(move, SharingKey(table, move.partnerId, relType).value, journals, firstId).Success?
    requires k < |move.lines|
    ensures var invs := CreatedFor(move, SharingKey(table, move.partnerId, relType).value, journals, firstId).value;
      (forall j :: 0 <= j < |invs| ==> k < |invs[j].lines|) && LinePriceSum(invs, k) == move.lines[k].priceUnit
  {
    var shares := SharingKey(table, move.partnerId, relType).value;
    SharesSumToOne(table, move.partnerId, relType);
    CreatedForPrices(move, shares, journals, firstId, k);
    SplitPricesAddUp(CreatedFor(move, shares, journals, firstId).value, shares, move.lines[k].priceUnit, k);
  }

  // ---------------------------------------------------------------------------
  // Counting member invoices

  /** How many records have `id` as their parent. */
  function ChildCount(parents: seq<Option<nat>>, id: nat): nat
    decreases |parents|
  {
    if |parents| == 0 then 0
    else (if parents[0] == Some(id) then 1 else 0) + ChildCount(parents[1..], id)
  }

  /** The parent of each created member invoice. */
  function ParentsOf(invs: seq<MemberInvoice>): (ps: seq<Option<nat>>)
    ensures |ps| == |invs|
    decreases |invs|
  {
    if |invs| == 0 then [] else [Some(invs[0].vals.parent)] + ParentsOf(invs[1..])
  }

  /** How many of the member invoices were created from invoice `parent` for member `member`. */
  function PairCount(invs: seq<MemberInvoice>, parent: nat, member: Partner): nat
    decreases |invs|
  {
    if |invs| == 0 then 0
    else (if invs[0].vals.parent == parent && invs[0].member == member then 1 else 0) + PairCount(invs[1..], parent, member)
  }

  /** A record has no children exactly when no record names it as parent. */
  lemma {:induction false} ChildCountNone(parents: seq<Option<nat>>, id: nat)
    ensures ChildCount(parents, id) == 0 <==> forall k :: 0 <= k < |parents| ==> parents[k] != Some(id)
    decreases |parents|
  {
    if |parents| > 0 {
      ChildCountNone(parents[1..], id);
      assert forall k :: 0 < k < |parents| ==> parents[k] == parents[1..][k - 1];
    }
  }

  lemma {:induction false} ChildCountAppend(a: seq<Option<nat>>, b: seq<Option<nat>>, id: nat)
    ensures ChildCount(a + b, id) == ChildCount(a, id) + ChildCount(b, id)
    decreases |a|
  {
    if |a| == 0 {
      assert a + b == b;
    } else {
      assert (a + b)[1..] == a[1..] + b;
      ChildCountAppend(a[1..], b, id);
    }
  }

  lemma {:induction false} ParentsOfAppend(a: seq<MemberInvoice>, b: seq<MemberInvoice>)
    ensures ParentsOf(a + b) == ParentsOf(a) + ParentsOf(b)
    decreases |a|
  {
    if |a| == 0 {
      assert a + b == b;
    } else {
      assert (a + b)[1..] == a[1..] + b;
      ParentsOfAppend(a[1..], b);
    }
  }

  lemma {:induction false} PairCountAppend(a: seq<MemberInvoice>, b: seq<MemberInvoice>, parent: nat, member: Partner)
    ensures PairCount(a + b, parent, member) == PairCount(a, parent, member) + PairCount(b, parent, member)
    decreases |a|
  {
    if |a| == 0 {
      assert a + b == b;
    } else {
      assert (a + b)[1..] == a[1..] + b;
      PairCountAppend(a[1..], b, parent, member);
    }
  }

  /** `_compute_member_invoice`: the number of member invoices of each of the invoices `ids`. */
  method ComputeMemberInvoice(parents: seq<Option<nat>>, ids: seq<nat>, counts: array<nat>)
    requires counts.Length == |ids|
    modifies counts
    ensures forall k :: 0 <= k < |ids| ==> counts[k] == ChildCount(parents, ids[k])
  {
    // the grouped count over the records whose parent is one of `ids`
    var res: map<nat, nat> := map[];
    var i := 0;
    while i < |parents|
      invariant 0 <= i <= |parents|
      invariant forall id :: id in ids ==> CountOr0(res, id) + ChildCount(parents[i..], id) == ChildCount(parents, id)
    {
      assert parents[i..][1..] == parents[i + 1..];
      if parents[i].Some? && parents[i].value in ids {
        var p := parents[i].value;
        res := res[p := CountOr0(res, p) + 1];
      }
      i := i + 1;
    }
    var k := 0;
    while k < |ids|
      invariant 0 <= k <= |ids|
      invariant forall j :: 0 <= j < k ==> counts[j] == ChildCount(parents, ids[j])
    {
      assert parents[|parents|..] == [];
      counts[k] := CountOr0(res, ids[k]);
      k := k + 1;
    }
  }

  /** `res.get(id, 0)`. */
  function CountOr0(res: map<nat, nat>, id: nat): nat {
    if id in res then res[id] else 0
  }

  // ---------------------------------------------------------------------------
  // _post

  /** An invoice with members that is not already open gets split. */
  predicate ToOpen(move: Move, shares: seq<Share>) {
    |shares| > 0 && move.state != Open
  }

  /** The members dictionaries of all invoices, in order; the first zero total fails. */
  function SharesTable(moves: seq<Move>, table: seq<Relation>, relType: nat): Result<seq<seq<Share>>, ConsortiumError>
    decreases |moves|
  {
    if |moves| == 0 then Success([])
    else match SharingKey(table, moves[0].partnerId, relType)
      case Failure(e) => Failure(e)
      case Success(s) => Prepend([s], SharesTable(moves[1..], table, relType))
  }

  lemma {:induction false} SharesTableShape(moves: seq<Move>, table: seq<Relation>, relType: nat)
    ensures SharesTable(moves, table, relType).Success? <==>
      forall i :: 0 <= i < |moves| ==> SharingKey(table, moves[i].partnerId, relType).Success?
    ensures SharesTable(moves, table, relType).Failure? ==> SharesTable(moves, table, relType).error == ZeroDivision
    ensures SharesTable(moves, table, relType).Success? ==>
      |SharesTable(moves, table, relType).value| == |moves| &&
      forall i :: 0 <= i < |moves| ==>
        SharingKey(table, moves[i].partnerId, relType) == Success(SharesTable(moves, table, relType).value[i])
    decreases |moves|
  {
    if |moves| > 0 {
      SharesTableShape(moves[1..], table, relType);
      assert forall i :: 0 < i < |moves| ==> moves[i] == moves[1..][i - 1];
      var r := SharesTable(moves, table, relType);
      if r.Success? {
        assert r.value[1..] == SharesTable(moves[1..], table, relType).value;
        assert forall i :: 0 < i < |moves| ==> r.value[i] == r.value[1..][i - 1];
      }
    }
  }

  /** The member invoices of all invoices to split, numbered consecutively from `firstId`. */
  function CreatedAll(moves: seq<Move>, shares: seq<seq<Share>>, journals: seq<Journal>, firstId: nat)
    : Result<seq<MemberInvoice>, ConsortiumError>
    requires |shares| == |moves|
    decreases |moves|
  {
    if |moves| == 0 then Success([])
    else if !ToOpen(moves[0], shares[0]) then CreatedAll(moves[1..], shares[1..], journals, firstId)
    else match CreatedFor(moves[0], shares[0], journals, firstId)
      case Failure(e) => Failure(e)
      case Success(invs) => Prepend(invs, CreatedAll(moves[1..], shares[1..], journals, firstId + |invs|))
  }

  /** The state an invoice is left in: plain invoices are posted, split ones cancelled, open ones untouched. */
  function Settled(move: Move, shares: seq<Share>): Move {
    if |shares| == 0 then move.(state := Posted)
    else if ToOpen(move, shares) then move.(state := Cancel)
    else move
  }

  function Settle(moves: seq<Move>, shares: seq<seq<Share>>): (r: seq<Move>)
    requires |shares| == |moves|
    ensures |r| == |moves| && forall i :: 0 <= i < |moves| ==> r[i] == Settled(moves[i], shares[i])
  {
    seq(|moves|, i requires 0 <= i < |moves| => Settled(moves[i], shares[i]))
  }

  /** Without members the invoice is posted normally; `split` picks the invoices to split instead. */
  predicate Selected(move: Move, shares: seq<Share>, split: bool) {
    if split then ToOpen(move, shares) else |shares| == 0
  }

  /** The ids of the selected invoices, in order. */
  function SelectIds(moves: seq<Move>, shares: seq<seq<Share>>, split: bool): seq<nat>
    requires |shares| == |moves|
    decreases |moves|
  {
    if |moves| == 0 then []
    else (if Selected(moves[0], shares[0], split) then [moves[0].id] else []) + SelectIds(moves[1..], shares[1..], split)
  }

  lemma {:induction false} SelectIdsMembers(moves: seq<Move>, shares: seq<seq<Share>>, split: bool, id: nat)
    requires |shares| == |moves|
    ensures id in SelectIds(moves, shares, split) <==>
      exists k :: 0 <= k < |moves| && moves[k].id == id && Selected(moves[k], shares[k], split)
    decreases |moves|
  {
    if |moves| > 0 {
      SelectIdsMembers(moves[1..], shares[1..], split, id);
      assert forall k :: 0 < k < |moves| ==> moves[k] == moves[1..][k - 1] && shares[k] == shares[1..][k - 1];
      if exists k :: 0 <= k < |moves| && moves[k].id == id && Selected(moves[k], shares[k], split) {
        var k :| 0 <= k < |moves| && moves[k].id == id && Selected(moves[k], shares[k], split);
        if k > 0 {
          assert moves[1..][k - 1].id == id && Selected(moves[1..][k - 1], shares[1..][k - 1], split);
        }
      }
    }
  }

  /** The outcome of posting: the invoices in their new states, the member invoices created, the invoices returned. */
  datatype PostResult = PostResult(moves: seq<Move>, created: seq<MemberInvoice>, returned: seq<nat>)

  /**
   * What `_post` does to the invoices `moves`: the members of every invoice
   * are looked up first; an invoice to split that is not a draft is an
   * error; otherwise the member invoices are created.
   */
  function PostOutcome(moves: seq<Move>, table: seq<Relation>, relType: nat, journals: seq<Journal>, firstId: nat)
    : Result<PostResult, ConsortiumError>
  {
    SharesTableShape(moves, table, relType);
    match SharesTable(moves, table, relType)
    case Failure(e) => Failure(e)
    case Success(shares) =>
      if exists k :: 0 <= k < |moves| && ToOpen(moves[k], shares[k]) && moves[k].state != Draft then Failure(NotDraft)
      else match CreatedAll(moves, shares, journals, firstId)
        case Failure(e) => Failure(e)
        case Success(created) =>
          Success(PostResult(Settle(moves, shares), created, SelectIds(moves, shares, false) + SelectIds(moves, shares, true)))
  }

  /** The members dictionary of every invoice, looked up invoice by invoice. */
  method MembersOfAll(moves: seq<Move>, table: seq<Relation>, relType: nat)
    returns (r: Result<seq<seq<Share>>, ConsortiumError>)
    ensures r == SharesTable(moves, table, relType)
  {
    var members: seq<seq<Share>> := [];
    var i := 0;
    assert moves[i..] == moves;
    PrependNothing(SharesTable(moves, table, relType));
    while i < |moves|
      invariant 0 <= i <= |moves|
      invariant Prepend(members, SharesTable(moves[i..], table, relType)) == SharesTable(moves, table, relType)
    {
      assert moves[i..][0] == moves[i] && moves[i..][1..] == moves[i + 1..];
      var found := MembersSharingKey(table, moves[i].partnerId, relType);
      if found.Failure? {
        return Failure(found.error);
      }
      PrependTwice(members, [found.value], SharesTable(moves[i + 1..], table, relType));
      members := members + [found.value];
      i := i + 1;
    }
    assert moves[i..] == [] && members + [] == members;
    return Success(members);
  }

  /** The member invoices of one invoice, created member by member. */
  method CreateFor(move: Move, shares: seq<Share>, journals: seq<Journal>, firstId: nat)
    returns (r: Result<seq<MemberInvoice>, ConsortiumError>)
    ensures r == CreatedFor(move, shares, journals, firstId)
  {
    var done: seq<MemberInvoice> := [];
    var j := 0;
    assert shares[j..] == shares;
    PrependNothing(CreatedFor(move, shares, journals, firstId));
    while j < |shares|
      invariant 0 <= j <= |shares|
      invariant Prepend(done, CreatedFor(move, shares[j..], journals, firstId + |done|)) ==
        CreatedFor(move, shares, journals, firstId)
    {
      assert shares[j..][0] == shares[j] && shares[j..][1..] == shares[j + 1..];
      var inv := CreateMemberInvoice(move, shares[j].partner, shares[j].share, journals, firstId + |done|);
      if inv.Failure? {
        return Failure(inv.error);
      }
      PrependTwice(done, [inv.value], CreatedFor(move, shares[j + 1..], journals, firstId + |done| + 1));
      done := done + [inv.value];
      j := j + 1;
    }
    assert shares[j..] == [] && done + [] == done;
    return Success(done);
  }

  /** The member invoices of every invoice to split, invoice by invoice. */
  method CreateAll(moves: seq<Move>, members: seq<seq<Share>>, journals: seq<Journal>, firstId: nat)
    returns (r: Result<seq<MemberInvoice>, ConsortiumError>)
    requires |members| == |moves|
    ensures r == CreatedAll(moves, members, journals, firstId)
  {
    var created: seq<MemberInvoice> := [];
    var i := 0;
    assert moves[i..] == moves && members[i..] == members;
    PrependNothing(CreatedAll(moves, members, journals, firstId));
    while i < |moves|
      invariant 0 <= i <= |moves|
      invariant Prepend(created, CreatedAll(moves[i..], members[i..], journals, firstId + |created|)) ==
        CreatedAll(moves, members, journals, firstId)
    {
      assert moves[i..][0] == moves[i] && moves[i..][1..] == moves[i + 1..];
      assert members[i..][0] == members[i] && members[i..][1..] == members[i + 1..];
      if ToOpen(moves[i], members[i]) {
        var base := firstId + |created|;
        var done := CreateFor(moves[i], members[i], journals, base);
        if done.Failure? {
          return Failure(done.error);
        }
        PrependTwice(created, done.value, CreatedAll(moves[i + 1..], members[i + 1..], journals, base + |done.value|));
        created := created + done.value;
      }
      i := i + 1;
    }
    assert moves[i..] == [] && members[i..] == [] && created + [] == created;
    return Success(created);
  }

  /**
   * `_post`: looks up the members of every invoice, rejects an invoice to
   * split that is not a draft, creates the member invoices pair by pair and
   * settles the invoices.
   */
  method Post(moves: seq<Move>, table: seq<Relation>, relType: nat, journals: seq<Journal>, firstId: nat)
    returns (r: Result<PostResult, ConsortiumError>)
    ensures r == PostOutcome(moves, table, relType, journals, firstId)
  {
    SharesTableShape(moves, table, relType);
    var members := MembersOfAll(moves, table, relType);
    if members.Failure? {
      return Failure(members.error);
    }
    var shares := members.value;
    if exists k :: 0 <= k < |moves| && ToOpen(moves[k], shares[k]) && moves[k].state != Draft {
      return Failure(NotDraft);
    }
    var created := CreateAll(moves, shares, journals, firstId);
    if created.Failure? {
      return Failure(created.error);
    }
    return Success(PostResult(Settle(moves, shares), created.value, SelectIds(moves, shares, false) + SelectIds(moves, shares, true)));
  }

  // ---------------------------------------------------------------------------
  // Properties of posting

  /** No two invoices of the batch are the same record. */
  predicate DistinctIds(moves: seq<Move>) {
    forall i, j :: 0 <= i < j < |moves| ==> moves[i].id != moves[j].id
  }

  /** Every members dictionary has one entry per member. */
  lemma {:induction false} SharingKeyDistinct(table: seq<Relation>, left: nat, relType: nat)
    requires SharingKey(table, left, relType).Success?
    ensures Distinct(SharingKey(table, left, relType).value)
  {
    var rels := Matching(table, left, relType);
    if |rels| > 0 {
      SharesOfDistinct(rels, KeyTotal(rels));
    }
  }

  /** The member invoices of one invoice all point at it, one per member. */
  lemma {:induction false} CreatedForCounts(move: Move, shares: seq<Share>, journals: seq<Journal>, firstId: nat,
                                            id: nat, q: Partner)
    requires Distinct(shares) && CreatedFor(move, shares, journals, firstId).Success?
    ensures ChildCount(ParentsOf(CreatedFor(move, shares, journals, firstId).value), id) ==
      if id == move.id then |shares| else 0
    ensures PairCount(CreatedFor(move, shares, journals, firstId).value, id, q) ==
      if id == move.id && Lookup(shares, q).Some? then 1 else 0
    decreases |shares|
  {
    var invs := CreatedFor(move, shares, journals, firstId).value;
    if |shares| > 0 {
      var inv := CreateMemberInvoice(move, shares[0].partner, shares[0].share, journals, firstId).value;
      CreatedInvoice(move, shares[0].partner, shares[0].share, journals, firstId);
      CreatedForCounts(move, shares[1..], journals, firstId + 1, id, q);
      assert invs == [inv] + CreatedFor(move, shares[1..], journals, firstId + 1).value;
      assert invs[1..] == CreatedFor(move, shares[1..], journals, firstId + 1).value;
      assert ParentsOf(invs)[1..] == ParentsOf(invs[1..]);
    }
  }

  lemma {:induction false} DistinctIdsTail(moves: seq<Move>)
    requires |moves| > 0 && DistinctIds(moves)
    ensures DistinctIds(moves[1..])
    ensures forall k :: 0 <= k < |moves[1..]| ==> moves[1..][k].id != moves[0].id
  {
    assert forall k :: 0 <= k < |moves[1..]| ==> moves[1..][k] == moves[k + 1];
  }

  /** The member invoices of the first invoice of a batch, if it is split. */
  function FirstBatch(moves: seq<Move>, shares: seq<seq<Share>>, journals: seq<Journal>, firstId: nat): seq<MemberInvoice>
    requires |moves| > 0 && |shares| == |moves|
  {
    if ToOpen(moves[0], shares[0]) && CreatedFor(moves[0], shares[0], journals, firstId).Success?
    then CreatedFor(moves[0], shares[0], journals, firstId).value
    else []
  }

  lemma {:induction false} CreatedAllCons(moves: seq<Move>, shares: seq<seq<Share>>, journals: seq<Journal>, firstId: nat)
    requires |moves| > 0 && |shares| == |moves| && CreatedAll(moves, shares, journals, firstId).Success?
    ensures ToOpen(moves[0], shares[0]) ==> CreatedFor(moves[0], shares[0], journals, firstId).Success?
    ensures var first := FirstBatch(moves, shares, journals, firstId);
      var tail := CreatedAll(moves[1..], shares[1..], journals, firstId + |first|);
      tail.Success? && CreatedAll(moves, shares, journals, firstId).value == first + tail.value
  {
    if !ToOpen(moves[0], shares[0]) {
      assert [] + CreatedAll(moves[1..], shares[1..], journals, firstId).value ==
        CreatedAll(moves[1..], shares[1..], journals, firstId).value;
    }
  }

  lemma {:induction false} CountsAppend(a: seq<MemberInvoice>, b: seq<MemberInvoice>, id: nat, q: Partner)
    ensures ChildCount(ParentsOf(a + b), id) == ChildCount(ParentsOf(a), id) + ChildCount(ParentsOf(b), id)
    ensures PairCount(a + b, id, q) == PairCount(a, id, q) + PairCount(b, id, q)
  {
    ParentsOfAppend(a, b);
    ChildCountAppend(ParentsOf(a), ParentsOf(b), id);
    PairCountAppend(a, b, id, q);
  }

  /** No member invoice points at a record outside the batch. */
  lemma {:induction false} CreatedAllElsewhere(moves: seq<Move>, shares: seq<seq<Share>>, journals: seq<Journal>,
                                               firstId: nat, id: nat, q: Partner)
    requires |shares| == |moves| && CreatedAll(moves, shares, journals, firstId).Success?
    requires forall k :: 0 <= k < |moves| ==> moves[k].id != id
    requires forall k :: 0 <= k < |shares| ==> Distinct(shares[k])
    ensures ChildCount(ParentsOf(CreatedAll(moves, shares, journals, firstId).value), id) == 0
    ensures PairCount(CreatedAll(moves, shares, journals, firstId).value, id, q) == 0
    decreases |moves|
  {
    if |moves| > 0 {
      assert forall k :: 0 < k < |moves| ==> moves[k] == moves[1..][k - 1] && shares[k] == shares[1..][k - 1];
      CreatedAllCons(moves, shares, journals, firstId);
      var first := FirstBatch(moves, shares, journals, firstId);
      var rest := CreatedAll(moves[1..], shares[1..], journals, firstId + |first|).value;
      CreatedAllElsewhere(moves[1..], shares[1..], journals, firstId + |first|, id, q);
      CountsAppend(first, rest, id, q);
      if ToOpen(moves[0], shares[0]) {
        CreatedForCounts(moves[0], shares[0], journals, firstId, id, q);
      }
    }
  }

  /** Each invoice to split gets one member invoice per member and no other; the other invoices get none. */
  lemma {:induction false} CreatedAllCounts(moves: seq<Move>, shares: seq<seq<Share>>, journals: seq<Journal>,
                                            firstId: nat, i: nat, q: Partner)
    requires |shares| == |moves| && CreatedAll(moves, shares, journals, firstId).Success?
    requires DistinctIds(moves) && i < |moves|
    requires forall k :: 0 <= k < |shares| ==> Distinct(shares[k])
    ensures ChildCount(ParentsOf(CreatedAll(moves, shares, journals, firstId).value), moves[i].id) ==
      if ToOpen(moves[i], shares[i]) then |shares[i]| else 0
    ensures PairCount(CreatedAll(moves, shares, journals, firstId).value, moves[i].id, q) ==
      if ToOpen(moves[i], shares[i]) && Lookup(shares[i], q).Some? then 1 else 0
    decreases |moves|, 1
  {
    if i == 0 {
      CreatedAllCountsFirst(moves, shares, journals, firstId, q);
    } else {
      CreatedAllCountsLater(moves, shares, journals, firstId, i, q);
    }
  }

  lemma {:induction false} CreatedAllCountsFirst(moves: seq<Move>, shares: seq<seq<Share>>, journals: seq<Journal>,
                                                 firstId: nat, q: Partner)
    requires |shares| == |moves| && CreatedAll(moves, shares, journals, firstId).Success?
    requires DistinctIds(moves) && 0 < |moves|
    requires forall k :: 0 <= k < |shares| ==> Distinct(shares[k])
    ensures ChildCount(ParentsOf(CreatedAll(moves, shares, journals, firstId).value), moves[0].id) ==
      if ToOpen(moves[0], shares[0]) then |shares[0]| else 0
    ensures PairCount(CreatedAll(moves, shares, journals, firstId).value, moves[0].id, q) ==
      if ToOpen(moves[0], shares[0]) && Lookup(shares[0], q).Some? then 1 else 0
  {
    var id := moves[0].id;
    DistinctIdsTail(moves);
    assert forall k :: 0 < k < |moves| ==> shares[k] == shares[1..][k - 1];
    CreatedAllCons(moves, shares, journals, firstId);
    var first := FirstBatch(moves, shares, journals, firstId);
    var rest := CreatedAll(moves[1..], shares[1..], journals, firstId + |first|).value;
    CountsAppend(first, rest, id, q);
    CreatedAllElsewhere(moves[1..], shares[1..], journals, firstId + |first|, id, q);
    if ToOpen(moves[0], shares[0]) {
      CreatedForCounts(moves[0], shares[0], journals, firstId, id, q);
    }
  }

  lemma {:induction false} CreatedAllCountsLater(moves: seq<Move>, shares: seq<seq<Share>>, journals: seq<Journal>,
                                                 firstId: nat, i: nat, q: Partner)
    requires |shares| == |moves| && CreatedAll(moves, shares, journals, firstId).Success?
    requires DistinctIds(moves) && 0 < i < |moves|
    requires forall k :: 0 <= k < |shares| ==> Distinct(shares[k])
    ensures ChildCount(ParentsOf(CreatedAll(moves, shares, journals, firstId).value), moves[i].id) ==
      if ToOpen(moves[i], shares[i]) then |shares[i]| else 0
    ensures PairCount(CreatedAll(moves, shares, journals, firstId).value, moves[i].id, q) ==
      if ToOpen(moves[i], shares[i]) && Lookup(shares[i], q).Some? then 1 else 0
    decreases |moves|, 0
  {
    var id := moves[i].id;
    DistinctIdsTail(moves);
    assert forall k :: 0 < k < |moves| ==> shares[k] == shares[1..][k - 1];
    CreatedAllCons(moves, shares, journals, firstId);
    var first := FirstBatch(moves, shares, journals, firstId);
    var rest := CreatedAll(moves[1..], shares[1..], journals, firstId + |first|).value;
    CountsAppend(first, rest, id, q);
    assert moves[1..][i - 1] == moves[i] && shares[1..][i - 1] == shares[i];
    CreatedAllCounts(moves[1..], shares[1..], journals, firstId + |first|, i - 1, q);
    if ToOpen(moves[0], shares[0]) {
      CreatedForCounts(moves[0], shares[0], journals, firstId, id, q);
    }
  }

  /**
   * After a successful post every invoice with members that was not open was
   * a draft and receives exactly one member invoice per member, and every
   * other invoice receives none.
   */
  lemma {:induction false} PostCreatesPerMember(moves: seq<Move>, table: seq<Relation>, relType: nat,
                                                journals: seq<Journal>, firstId: nat, i: nat, q: Partner)
    requires PostOutcome(moves, table, relType, journals, firstId).Success?
    requires DistinctIds(moves) && i < |moves|
    ensures SharingKey(table, moves[i].partnerId, relType).Success?
    ensures var shares := SharingKey(table, moves[i].partnerId, relType).value;
      var created := PostOutcome(moves, table, relType, journals, firstId).value.created;
      (ToOpen(moves[i], shares) ==> moves[i].state == Draft) &&
      ChildCount(ParentsOf(created), moves[i].id) == (if ToOpen(moves[i], shares) then |shares| else 0) &&
      PairCount(created, moves[i].id, q) == (if ToOpen(moves[i], shares) && Lookup(shares, q).Some? then 1 else 0)
  {
    SharesTableShape(moves, table, relType);
    var shares := SharesTable(moves, table, relType).value;
    forall k | 0 <= k < |shares|
      ensures Distinct(shares[k])
    {
      SharingKeyDistinct(table, moves[k].partnerId, relType);
    }
    CreatedAllCounts(moves, shares, journals, firstId, i, q);
  }

  /**
   * After a successful post an invoice without relations is posted, one with
   * members is cancelled, and one with members that was already open is left
   * as it was.
   */
  lemma {:induction false} PostSettles(moves: seq<Move>, table: seq<Relation>, relType: nat,
                                       journals: seq<Journal>, firstId: nat, i: nat)
    requires PostOutcome(moves, table, relType, journals, firstId).Success? && i < |moves|
    ensures var after := PostOutcome(moves, table, relType, journals, firstId).value.moves;
      var found := |Matching(table, moves[i].partnerId, relType)| > 0;
      |after| == |moves| &&
      (!found ==> after[i] == moves[i].(state := Posted)) &&
      (found && moves[i].state != Open ==> moves[i].state == Draft && after[i] == moves[i].(state := Cancel)) &&
      (found && moves[i].state == Open ==> after[i] == moves[i])
  {
    SharesTableShape(moves, table, relType);
    SharingKeyEmpty(table, moves[i].partnerId, relType);
    var shares := SharesTable(moves, table, relType).value;
    assert !(ToOpen(moves[i], shares[i]) && moves[i].state != Draft);
    var after := PostOutcome(moves, table, relType, journals, firstId).value.moves;
    assert after == Settle(moves, shares);
    assert after[i] == Settled(moves[i], shares[i]);
  }

  /** The invoices returned are those posted normally and those split: all but the open ones with members. */
  lemma {:induction false} PostReturns(moves: seq<Move>, table: seq<Relation>, relType: nat,
                                       journals: seq<Journal>, firstId: nat, i: nat)
    requires PostOutcome(moves, table, relType, journals, firstId).Success?
    requires DistinctIds(moves) && i < |moves|
    ensures moves[i].id in PostOutcome(moves, table, relType, journals, firstId).value.returned <==>
      |Matching(table, moves[i].partnerId, relType)| == 0 || moves[i].state != Open
  {
    SharesTableShape(moves, table, relType);
    SharingKeyEmpty(table, moves[i].partnerId, relType);
    var shares := SharesTable(moves, table, relType).value;
    SelectIdsMembers(moves, shares, false, moves[i].id);
    SelectIdsMembers(moves, shares, true, moves[i].id);
  }

  /** An invoice to split that is neither draft nor open stops the whole post once every lookup succeeds. */
  lemma {:induction false} PostRejectsNonDraft(moves: seq<Move>, table: seq<Relation>, relType: nat,
                                               journals: seq<Journal>, firstId: nat, i: nat)
    requires forall k :: 0 <= k < |moves| ==> SharingKey(table, moves[k].partnerId, relType).Success?
    requires i < |moves| && |Matching(table, moves[i].partnerId, relType)| > 0
    requires moves[i].state != Open && moves[i].state != Draft
    ensures PostOutcome(moves, table, relType, journals, firstId) == Failure(NotDraft)
  {
    SharesTableShape(moves, table, relType);
    SharingKeyEmpty(table, moves[i].partnerId, relType);
    var shares := SharesTable(moves, table, relType).value;
    assert ToOpen(moves[i], shares[i]) && moves[i].state != Draft;
  }

  /** An invoice whose partner's keys sum to zero makes the post divide by zero. */
  lemma {:induction false} PostZeroDivision(moves: seq<Move>, table: seq<Relation>, relType: nat,
                                            journals: seq<Journal>, firstId: nat, i: nat)
    requires i < |moves|
    requires |Matching(table, moves[i].partnerId, relType)| > 0
    requires KeyTotal(Matching(table, moves[i].partnerId, relType)) == 0.0
    ensures PostOutcome(moves, table, relType, journals, firstId) == Failure(ZeroDivision)
  {
    SharesTableShape(moves, table, relType);
  }
}
