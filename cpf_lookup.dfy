/**
 * The person lookup by CPF: the masked CPF text, whether a search has
 * finished and found nobody, and the selected person the parent holds;
 * plus the request of the dialog that creates the person when none is found.
 */
module CpfLookup {
  import opened Wrappers
  import opened Text
  import opened Schema
  import opened Masks
  import Routes

  /** How a document search request ended: the server's answer, or a failed request. */
  datatype SearchOutcome = Answered(person: Option<Person>) | Failed

  /** `person && person.id`: an answer that names a person with a non-zero id. */
  predicate FoundPerson(outcome: SearchOutcome) {
    outcome.Answered? && outcome.person.Some? && outcome.person.value.id != 0
  }

  /** The document query the search sends: the digits of the text. */
  function SearchQuery(document: string): (q: string)
    ensures AllDigits(q)
  {
    Digits(document)
  }

  /** The search's own guard agrees with the server's: at least three digits. */
  lemma ClientGuardMatchesServer(document: string)
    ensures |SearchQuery(document)| >= 3 <==> Routes.NeedsLookup(Some(SearchQuery(document)))
  {
    DigitsIdempotent(document);
  }

  class Lookup {
    var cpf: string
    var searched: bool
    var notFound: bool
    /** The parent's `selectedPerson`, replaced through `onPersonChange`. */
    var selected: Option<Person>

    /** A finished search reports "not found" or has a selection; "not found" only after a search. */
    predicate Consistent()
      reads this
    {
      (notFound ==> searched) && (searched && !notFound ==> selected.Some?)
    }

    constructor (selected: Option<Person>)
      ensures cpf == "" && !searched && !notFound && this.selected == selected
      ensures Consistent()
    {
      cpf := "";
      searched := false;
      notFound := false;
      this.selected := selected;
    }

    /**
     * `searchByCpf(document)`, as it stands once the request has settled.
     * Fewer than three digits: nothing happens. A found person becomes the
     * selection; an answer without one clears the selection and reports
     * "not found"; a failed request reports "not found" and keeps the
     * selection. Either way the search is marked finished.
     */
    method Search(document: string, outcome: SearchOutcome)
      requires Consistent()
      modifies this
      ensures Consistent() && cpf == old(cpf)
      ensures |SearchQuery(document)| < 3 ==>
        searched == old(searched) && notFound == old(notFound) && selected == old(selected)
      ensures |SearchQuery(document)| >= 3 ==> searched
      ensures |SearchQuery(document)| >= 3 && FoundPerson(outcome) ==> selected == outcome.person && !notFound
      ensures |SearchQuery(document)| >= 3 && outcome.Answered? && !FoundPerson(outcome) ==> selected.None? && notFound
      ensures |SearchQuery(document)| >= 3 && outcome.Failed? ==> selected == old(selected) && notFound
    {
      var cleaned := SearchQuery(document);
      if |cleaned| < 3 {
        return;
      }
      searched := false;
      notFound := false;
      match outcome
      case Answered(person) =>
        if FoundPerson(outcome) {
          selected := person;
          notFound := false;
        } else {
          selected := None;
          notFound := true;
        }
        searched := true;
      case Failed =>
        notFound := true;
        searched := true;
    }

    /** `handleCpfChange`: the masked text is kept and the search state and the selection are cleared. */
    method ChangeCpf(value: string)
      modifies this
      ensures cpf == FormatCpf(value) && !searched && !notFound && selected.None?
      ensures Consistent()
    {
      cpf := FormatCpf(value);
      searched := false;
      notFound := false;
      selected := None;
    }

    /** The effect that searches on its own once the text holds eleven digits. */
    predicate AutoSearchDue()
      reads this
    {
      |Digits(cpf)| == 11
    }

    /** `clearSelection`: back to an empty text, no selection and no search. */
    method Clear()
      modifies this
      ensures cpf == "" && selected.None? && !searched && !notFound
      ensures Consistent()
    {
      cpf := "";
      selected := None;
      searched := false;
      notFound := false;
    }

    /** `onCreated`: the new person is selected and its document, if any, becomes the text. */
    method Created(person: Person)
      modifies this
      ensures selected == Some(person) && cpf == person.document.GetOr("")
      ensures searched && !notFound && Consistent()
    {
      selected := Some(person);
      cpf := person.document.GetOr("");
      notFound := false;
      searched := true;
    }
  }

  /**
   * After typing, the automatic search becomes due exactly when the typed
   * text holds at least eleven digits, and that search passes the guard.
   */
  method TypeThenAutoSearch(l: Lookup, value: string) returns (due: bool)
    modifies l
    ensures due <==> |Digits(value)| >= 11
    ensures due ==> |SearchQuery(l.cpf)| >= 3
    ensures l.cpf == FormatCpf(value) && l.selected.None?
  {
    l.ChangeCpf(value);
    FormatCpfKeepsDigits(value);
    due := l.AutoSearchDue();
  }

  // ---- creating the person ----

  /** A trimmed text, or null when nothing is left. */
  function OrNull(s: string): (r: Option<string>)
    ensures r.None? <==> Trim(s) == ""
    ensures r.Some? ==> r.value == Trim(s)
  {
    if Trim(s) == "" then None else Some(Trim(s))
  }

  /**
   * `CreatePersonDialog.handleSubmit`: nothing is sent while the name or the
   * phone is blank after trimming; otherwise every text goes out trimmed, an
   * empty email or document as null, with the lookup's person type.
   */
  function CreatePersonRequest(name: string, phone: string, email: string, document: string, personType: PersonType): (r: Option<InsertPerson>)
    ensures r.None? <==> Trim(name) == "" || Trim(phone) == ""
    ensures r.Some? ==> r.value.name == Trim(name) && r.value.phone == Trim(phone)
    ensures r.Some? ==> r.value.email == OrNull(email) && r.value.document == OrNull(document)
    ensures r.Some? ==> r.value.personType == personType
  {
    if Trim(name) == "" || Trim(phone) == "" then None
    else Some(InsertPerson(Trim(name), OrNull(email), Trim(phone), OrNull(document), personType))
  }

  /** A name or phone made only of spaces, tabs and line breaks sends nothing; sent texts never start or end with one. */
  lemma BlankRefused(name: string, phone: string, email: string, document: string, personType: PersonType)
    ensures (forall i :: 0 <= i < |name| ==> IsJsWhitespace(name[i])) ==>
      CreatePersonRequest(name, phone, email, document, personType).None?
    ensures var r := CreatePersonRequest(name, phone, email, document, personType);
      r.Some? ==> !IsJsWhitespace(r.value.name[0]) && !IsJsWhitespace(r.value.name[|r.value.name| - 1])
  {
    TrimEmptyIff(name);
  }
}
