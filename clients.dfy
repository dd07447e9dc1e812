/** The decisions of the clients screen (`Clients.tsx`): the search filter, the form and
    its submit, the digit gates in front of the postcode (CEP) and company-registry (CNPJ)
    lookups with the merges of their replies into the form, and the WhatsApp link. */
module Clients {
  import opened Wrappers
  import opened Types
  import opened Lists
  import opened Forms
  import opened Strings

  // ---------------------------------------------------------------- search

  /** The name test of the search: the lower-cased name contains the lower-cased term. */
  predicate NameMatches(term: string, c: Client) {
    Contains(LowerCase(c.name), LowerCase(term))
  }

  /** A client matches a search term when its name matches it, or the document contains
      the term exactly as typed. */
  predicate Matches(term: string, c: Client) {
    NameMatches(term, c) || Contains(c.document, term)
  }

  function Matcher(term: string): Client -> bool {
    (c: Client) => Matches(term, c)
  }

  /** `filteredClients` */
  function FilteredClients(clients: seq<Client>, term: string): (r: seq<Client>)
    ensures |r| <= |clients|
    ensures forall i :: 0 <= i < |r| ==> Matches(term, r[i])
  {
    Filter(clients, Matcher(term))
  }

  /** The search shows exactly the matching clients, in their original order. */
  lemma FilteredClientsExact(clients: seq<Client>, term: string, c: Client)
    ensures c in FilteredClients(clients, term) <==> c in clients && Matches(term, c)
    ensures Subseq(FilteredClients(clients, term), clients)
  {
    FilterMembers(clients, Matcher(term), c);
    FilterSubseq(clients, Matcher(term));
  }

  /** An empty search box shows every client. */
  lemma EmptySearchKeepsAll(clients: seq<Client>)
    ensures FilteredClients(clients, "") == clients
  {
    forall i | 0 <= i < |clients|
      ensures Matcher("")(clients[i])
    {
      EmptyContained(clients[i].document);
    }
    FilterKeepsAll(clients, Matcher(""));
  }

  /** The name test ignores the letter case of the term: it gives the same answer for the
      term and for its lower-cased form, so a name match survives lower-casing the term. */
  lemma NameSearchIgnoresCase(c: Client, term: string)
    ensures NameMatches(term, c) <==> NameMatches(LowerCase(term), c)
    ensures NameMatches(term, c) ==> Matches(LowerCase(term), c)
  {
    LowerCaseIdempotent(term);
  }

  // ---------------------------------------------------------------- form

  /** `Partial<Client>` as the form holds it. */
  datatype ClientForm = ClientForm(
    kind: Option<ClientType>, name: Option<string>, document: Option<string>,
    email: Option<string>, phone: Option<string>, address: Option<string>,
    city: Option<string>, state: Option<string>)

  /** `handleOpenCreate`: a legal entity with every text field empty. */
  function NewClientForm(): ClientForm {
    ClientForm(Some(PJ), Some(""), Some(""), Some(""), Some(""), Some(""), Some(""), Some(""))
  }

  /** `handleOpenEdit`: the form filled from an existing client. */
  function EditForm(c: Client): ClientForm {
    ClientForm(Some(c.kind), Some(c.name), Some(c.document), Some(c.email), Some(c.phone),
               Some(c.address), Some(c.city), Some(c.state))
  }

  /** `handleSubmit`: nothing happens unless name and document are filled in; otherwise the
      client keeps an edited record's id or gets a fresh `c-` id, a missing type is PJ,
      missing text becomes empty, and it is passed to update or add. */
  function HandleSubmit(mode: Mode, form: ClientForm, stamp: string): (r: Submission<Client>)
    ensures r.Rejected? <==> !Present(form.name) || !Present(form.document)
    ensures !r.Rejected? ==> (r.Update? <==> mode.Editing?)
    ensures !r.Rejected? && mode.Editing? ==> r.record.id == mode.id
    ensures !r.Rejected? && mode.Creating? ==> r.record.id == "c-" + stamp
    ensures !r.Rejected? ==>
      && r.record.name == form.name.value && r.record.name != ""
      && r.record.document == form.document.value && r.record.document != ""
    ensures !r.Rejected? ==>
      && (form.kind.None? ==> r.record.kind == PJ)
      && (form.kind.Some? ==> r.record.kind == form.kind.value)
      && (form.email.None? ==> r.record.email == "")
      && (form.phone.None? ==> r.record.phone == "")
      && (form.address.None? ==> r.record.address == "")
      && (form.city.None? ==> r.record.city == "")
      && (form.state.None? ==> r.record.state == "")
    ensures !r.Rejected? ==>
      && (form.email.Some? ==> r.record.email == form.email.value)
      && (form.phone.Some? ==> r.record.phone == form.phone.value)
      && (form.address.Some? ==> r.record.address == form.address.value)
      && (form.city.Some? ==> r.record.city == form.city.value)
      && (form.state.Some? ==> r.record.state == form.state.value)
  {
    if Present(form.name) && Present(form.document) then
      Dispatch(mode, Client(
        RecordId(mode, "c-", stamp), form.name.value, form.kind.GetOr(PJ), form.document.value,
        Or(form.email, ""), Or(form.phone, ""), Or(form.address, ""), Or(form.city, ""),
        Or(form.state, "")))
    else
      Rejected
  }

  /** A blank form cannot be submitted. */
  lemma NewFormRejected(mode: Mode, stamp: string)
    ensures HandleSubmit(mode, NewClientForm(), stamp).Rejected?
  {
  }

  /** Opening a client for editing and saving it unchanged updates it to itself. */
  lemma EditRoundTrip(c: Client, stamp: string)
    requires c.name != "" && c.document != ""
    ensures HandleSubmit(Editing(c.id), EditForm(c), stamp) == Update(c)
  {
  }

  // ---------------------------------------------------------------- lookups

  /** `fetchAddressByCEP`: the postcode to look up, namely the digits of the address field
      when there are exactly eight of them. */
  function CepQuery(address: Option<string>): (q: Option<string>)
    ensures q.Some? <==> address.Some? && |Digits(address.value)| == 8
    ensures q.Some? ==> q.value == Digits(address.value)
    ensures q.Some? ==> |q.value| == 8 && forall i :: 0 <= i < 8 ==> IsDigit(q.value[i])
  {
    if address.Some? && |Digits(address.value)| == 8 then Some(Digits(address.value)) else None
  }

  /** `fetchCNPJData`: the registry number to look up, namely the digits of the document
      of a legal entity when there are exactly fourteen of them. */
  function CnpjQuery(form: ClientForm): (q: Option<string>)
    ensures q.Some? <==> form.kind == Some(PJ) && form.document.Some? && |Digits(form.document.value)| == 14
    ensures q.Some? ==> q.value == Digits(form.document.value)
    ensures q.Some? ==> |q.value| == 14 && forall i :: 0 <= i < 14 ==> IsDigit(q.value[i])
  {
    if form.kind == Some(PJ) && form.document.Some? && |Digits(form.document.value)| == 14 then
      Some(Digits(form.document.value))
    else
      None
  }

  /** A private person's document is never looked up. */
  lemma PersonNotLookedUp(form: ClientForm)
    requires form.kind == Some(PF)
    ensures CnpjQuery(form).None?
  {
  }

  /** The fields of the postcode service's reply the form uses; `erro` marks an unknown
      postcode. */
  datatype CepReply = CepReply(erro: bool, logradouro: string, bairro: string, localidade: string, uf: string)

  /** The postcode reply fills address, city and state, unless it reports an error; no
      other field changes. */
  function CepMerge(form: ClientForm, reply: CepReply): (r: ClientForm)
    ensures reply.erro ==> r == form
    ensures !reply.erro ==>
      && r.address == Some(reply.logradouro + ", " + reply.bairro)
      && r.city == Some(reply.localidade) && r.state == Some(reply.uf)
    ensures r.(address := form.address, city := form.city, state := form.state) == form
  {
    if reply.erro then form
    else form.(address := Some(reply.logradouro + ", " + reply.bairro),
               city := Some(reply.localidade), state := Some(reply.uf))
  }

  /** The fields of the registry's reply the form uses; an empty `cnpj` means no company
      was found, and a missing e-mail or phone is `None` or empty. */
  datatype CnpjReply = CnpjReply(
    cnpj: string, razaoSocial: string, email: Option<string>, phone: Option<string>,
    logradouro: string, numero: string, bairro: string, municipio: string, uf: string)

  /** The registry reply replaces name, address, city and state, and replaces e-mail and
      phone only where it has one; type and document never change. */
  function CnpjMerge(form: ClientForm, reply: CnpjReply): (r: ClientForm)
    ensures reply.cnpj == "" ==> r == form
    ensures reply.cnpj != "" ==>
      && r.name == Some(reply.razaoSocial)
      && r.email == (if Present(reply.email) then reply.email else form.email)
      && r.phone == (if Present(reply.phone) then reply.phone else form.phone)
      && r.address == Some(reply.logradouro + ", " + reply.numero + " - " + reply.bairro)
      && r.city == Some(reply.municipio) && r.state == Some(reply.uf)
    ensures r.kind == form.kind && r.document == form.document
  {
    if reply.cnpj == "" then form
    else form.(name := Some(reply.razaoSocial),
               email := if Present(reply.email) then reply.email else form.email,
               phone := if Present(reply.phone) then reply.phone else form.phone,
               address := Some(reply.logradouro + ", " + reply.numero + " - " + reply.bairro),
               city := Some(reply.municipio), state := Some(reply.uf))
  }

  /** A company found without contact details keeps the contacts already typed in. */
  lemma CnpjMergeKeepsContacts(form: ClientForm, reply: CnpjReply)
    requires !Present(reply.email) && !Present(reply.phone)
    ensures CnpjMerge(form, reply).email == form.email
    ensures CnpjMerge(form, reply).phone == form.phone
  {
  }

  // ---------------------------------------------------------------- card

  const WHATSAPP_PREFIX: string := "https://wa.me/55"

  /** The WhatsApp link of a client card: none without a phone, otherwise the Brazilian
      country code followed by the phone's digits and nothing else. */
  function WhatsAppLink(phone: string): (r: Option<string>)
    ensures r.None? <==> phone == ""
    ensures r.Some? ==> WHATSAPP_PREFIX <= r.value
    ensures r.Some? ==> forall i :: |WHATSAPP_PREFIX| <= i < |r.value| ==> IsDigit(r.value[i])
    ensures r.Some? ==> r.value[|WHATSAPP_PREFIX|..] == Digits(phone)
  {
    if phone == "" then None else Some(WHATSAPP_PREFIX + Digits(phone))
  }
}
