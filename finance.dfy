/** The decisions of the finance screen (`Finance.tsx`): the type filter over the
    transaction list, the new-transaction form, and the status label. */
module Finance {
  import opened Wrappers
  import opened Types
  import opened Lists
  import opened Forms

  /** The filter buttons: every transaction, or only those of one type. */
  datatype TxFilter = All | Only(kind: TxType)

  function Keep(f: TxFilter): Transaction -> bool {
    (t: Transaction) => f.All? || t.kind == f.kind
  }

  /** `filteredTransactions`: `All` shows the whole list; a type shows only transactions of
      that type. */
  function FilteredTransactions(ts: seq<Transaction>, f: TxFilter): (r: seq<Transaction>)
    ensures f == All ==> r == ts
    ensures f.Only? ==> forall i :: 0 <= i < |r| ==> r[i].kind == f.kind
  {
    if f == All then
      FilterKeepsAll(ts, Keep(f));
      Filter(ts, Keep(f))
    else
      Filter(ts, Keep(f))
  }

  /** A type filter shows exactly the transactions of that type, in their original order. */
  lemma FilteredExact(ts: seq<Transaction>, kind: TxType, t: Transaction)
    ensures t in FilteredTransactions(ts, Only(kind)) <==> t in ts && t.kind == kind
    ensures Subseq(FilteredTransactions(ts, Only(kind)), ts)
  {
    FilterMembers(ts, Keep(Only(kind)), t);
    FilterSubseq(ts, Keep(Only(kind)));
  }

  /** The income and the expense views split the list: every transaction is in exactly one
      of them. */
  lemma IncomeExpensePartition(ts: seq<Transaction>)
    ensures |FilteredTransactions(ts, Only(INCOME))| + |FilteredTransactions(ts, Only(EXPENSE))| == |ts|
    ensures multiset(FilteredTransactions(ts, Only(INCOME))) + multiset(FilteredTransactions(ts, Only(EXPENSE)))
            == multiset(ts)
  {
    FilterPartition(ts, Keep(Only(INCOME)), Keep(Only(EXPENSE)));
  }

  /** `Partial<Transaction>` as the form holds it; the amount input stores `Number` of its
      text, so an emptied input holds 0. */
  datatype TxForm = TxForm(
    description: Option<string>, amount: Option<int>, kind: Option<TxType>, projectId: Option<string>)

  /** The form's starting state, and the state it is reset to after a save. */
  const BLANK_TX_FORM: TxForm := TxForm(None, None, Some(EXPENSE), None)

  /** What a save does: the transaction passed to `addTransaction`, if any, and the form
      afterwards. */
  datatype TxSave = TxSave(added: Option<Transaction>, form: TxForm)

  /** `handleSave`: with a description and a non-zero amount a paid transaction in category
      `Geral` is added, of the chosen type (an expense if none), for the chosen project if
      any, and the form is reset; otherwise nothing happens. */
  function Save(form: TxForm, stamp: string, now: string): (r: TxSave)
    ensures r.added.None? <==> !Present(form.description) || form.amount.None? || form.amount.value == 0
    ensures r.added.None? ==> r.form == form
    ensures r.added.Some? ==> r.form == BLANK_TX_FORM
    ensures r.added.Some? ==>
      var t := r.added.value;
      && t.id == "t-" + stamp
      && t.description == form.description.value && t.description != ""
      && t.amount == form.amount.value && t.amount != 0
      && t.kind == form.kind.GetOr(EXPENSE)
      && t.status == TxStatus.PAID && t.category == "Geral"
      && t.date == now && t.projectId == form.projectId
  {
    if Present(form.description) && form.amount.Some? && form.amount.value != 0 then
      TxSave(Some(Transaction(
        "t-" + stamp, form.projectId, form.description.value, form.amount.value,
        form.kind.GetOr(EXPENSE), "Geral", now, TxStatus.PAID)), BLANK_TX_FORM)
    else
      TxSave(None, form)
  }

  /** A freshly opened form cannot be saved: it has neither description nor amount. */
  lemma BlankFormRejected(stamp: string, now: string)
    ensures Save(BLANK_TX_FORM, stamp, now).added.None?
  {
  }

  /** The status label: paid, pending, and anything else is overdue. */
  function TxStatusLabel(s: TxStatus): (text: string)
    ensures text == "Atrasado" <==> s == OVERDUE
  {
    match s
    case PAID => "Pago/Recebido"
    case PENDING => "Pendente"
    case OVERDUE => "Atrasado"
  }

  /** No two statuses share a label. */
  lemma TxStatusLabelInjective(s: TxStatus, t: TxStatus)
    requires TxStatusLabel(s) == TxStatusLabel(t)
    ensures s == t
  {
  }
}
