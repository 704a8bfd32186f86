/**
 * The user administration page: the search over the user list, which rows
 * offer deletion, and the edit dialog's password handling.
 */
module UsersView {
  import opened Wrappers
  import opened Text
  import opened Tables
  import opened Zod
  import opened Storage
  import opened AuthSchema

  /**
   * The search: empty matches everyone; otherwise the lower-cased term is
   * looked for in the lower-cased first name, last name and username, and
   * as it is in the cpf and the phone.
   */
  predicate MatchesUser(u: PublicUser, search: string) {
    search == ""
    || (var term := Lower(search);
        Contains(Lower(u.firstName), term)
        || (u.lastName.Some? && Contains(Lower(u.lastName.value), term))
        || Contains(Lower(u.username), term)
        || Contains(u.cpf, term)
        || Contains(u.phone, term))
  }

  /** `filteredUsers`: the matching users in list order, undefined while the list loads. */
  function FilteredUsers(users: Option<seq<PublicUser>>, search: string): (r: Option<seq<PublicUser>>)
    ensures r.None? <==> users.None?
    ensures r.Some? ==> IsSubsequence(r.value, users.value)
    ensures r.Some? ==> forall u :: u in r.value <==> u in users.value && MatchesUser(u, search)
  {
    if users.None? then None
    else
      FilterIsSubsequence(users.value, u => MatchesUser(u, search));
      Some(Filter(users.value, u => MatchesUser(u, search)))
  }

  /** An empty search lists every user. */
  lemma EmptySearchListsAll(users: seq<PublicUser>)
    ensures FilteredUsers(Some(users), "") == Some(users)
  {
    FilterKeepsAll(users, u => MatchesUser(u, ""));
  }

  lemma LowerOfDigits(s: string)
    requires AllDigits(s)
    ensures Lower(s) == s
  {
  }

  /** A term of digits found in a user's cpf or phone always lists that user. */
  lemma DigitSearchFindsDocument(users: seq<PublicUser>, u: PublicUser, search: string)
    requires u in users && AllDigits(search)
    requires Contains(u.cpf, search) || Contains(u.phone, search)
    ensures u in FilteredUsers(Some(users), search).value
  {
    LowerOfDigits(search);
  }

  /** The delete button: offered on every row except the signed-in user's own. */
  predicate OffersDelete(u: PublicUser, current: Option<PublicUser>) {
    current.None? || u.id != current.value.id
  }

  lemma NoSelfDelete(u: PublicUser, current: Option<PublicUser>)
    ensures OffersDelete(u, current) <==> !(current.Some? && current.value.id == u.id)
    ensures current == Some(u) ==> !OffersDelete(u, current)
  {
  }

  // ---- the edit dialog ----

  /** The edit form's values; the password key may be missing. */
  datatype EditForm = EditForm(
    firstName: string, lastName: string, phone: string, cpf: string,
    gender: string, role: string, password: Option<string>)

  /** The dialog opens on the user's values, an absent last name as `""` and an empty password. */
  function EditDefaults(u: PublicUser): (f: EditForm)
    ensures f.password == Some("") && f.lastName == u.lastName.GetOr("")
    ensures f.firstName == u.firstName && f.phone == u.phone && f.cpf == u.cpf
  {
    EditForm(u.firstName, u.lastName.GetOr(""), u.phone, u.cpf, GenderLabel(u.gender), RoleLabel(u.role), Some(""))
  }

  /** The edit password rule: absent or empty, or at least six characters. */
  predicate EditPasswordValid(password: Option<string>) {
    !TruthyText(password) || Utf16Length(password.value) >= 6
  }

  /** The password as it appears in the request body. */
  function PasswordJson(password: Option<string>): Option<Json> {
    if password.None? then None else Some(JStr(password.value))
  }

  /** `handleSubmit`: a copy of the form whose password key is deleted when empty. */
  method StripPassword(data: EditForm) returns (clean: EditForm)
    ensures clean.password.None? <==> !TruthyText(data.password)
    ensures clean.password.Some? ==> clean.password == data.password
    ensures clean == data.(password := clean.password)
  {
    clean := data;
    if !TruthyText(clean.password) {
      clean := clean.(password := None);
    }
  }

  /** What a valid edit form sends as its password always passes the update schema's password rule. */
  method SubmitPassword(data: EditForm) returns (sent: Option<string>)
    requires EditPasswordValid(data.password)
    ensures sent.None? || Utf16Length(sent.value) >= 6
    ensures Conforms(PasswordJson(sent), Optional(PasswordRule))
  {
    var clean := StripPassword(data);
    sent := clean.password;
  }
}
