/**
 * src/pages/admin/UserEditPage.jsx: the admin form editing user `id`. The fetched record fills
 * the form, each missing or empty field falling back to its default; full name and email are
 * required; an ok reply to the PUT navigates to the user's detail page.
 */
module UserEditPage {
  import opened Wrappers
  import Text

  datatype Form = Form(fullName: string, email: string, phone: string, role: string)

  /** The `name` attribute of the input `handleChange` is called from. */
  datatype Field = FullName | Email | Phone | Role

  /** `{ ...formData, [name]: value }` */
  function With(f: Form, field: Field, value: string): (r: Form)
    ensures field.FullName? ==> r == Form(value, f.email, f.phone, f.role)
    ensures field.Email? ==> r == Form(f.fullName, value, f.phone, f.role)
    ensures field.Phone? ==> r == Form(f.fullName, f.email, value, f.role)
    ensures field.Role? ==> r == Form(f.fullName, f.email, f.phone, value)
  {
    match field
    case FullName => f.(fullName := value)
    case Email => f.(email := value)
    case Phone => f.(phone := value)
    case Role => f.(role := value)
  }

  /** The initial form: empty fields and the role "user". */
  const Initial := Form("", "", "", "user")

  /** `data.data` of the detail reply: each field may be missing. */
  datatype Record = Record(fullname: Option<string>, email: Option<string>, phone: Option<string>,
                           role: Option<string>)

  /** The form `fetchUserDetail` sets from a record (`x || ''`, and `role || 'user'`). */
  function FormOf(r: Record): (f: Form)
    ensures f.role != ""
    ensures r.role.Some? && r.role.value != "" ==> f.role == r.role.value
    ensures r.role.None? || r.role.value == "" ==> f.role == "user"
    ensures f.fullName == r.fullname.GetOr("") && f.email == r.email.GetOr("") && f.phone == r.phone.GetOr("")
  {
    Form(Text.Or(r.fullname, ""), Text.Or(r.email, ""), Text.Or(r.phone, ""), Text.Or(r.role, "user"))
  }

  /** A missing or empty value, which `||` treats alike. */
  predicate Unset(v: Option<string>)
  {
    v.None? || v.value == ""
  }

  /** A record whose every field is missing or empty gives back the initial form. */
  lemma EmptyRecordIsInitial(r: Record)
    requires Unset(r.fullname) && Unset(r.email) && Unset(r.phone) && Unset(r.role)
    ensures FormOf(r) == Initial
  {
  }

  /** A record holding exactly the fields of a form (role not empty) fills in that form unchanged. */
  lemma FormOfRoundTrip(f: Form)
    requires f.role != ""
    ensures FormOf(Record(Some(f.fullName), Some(f.email), Some(f.phone), Some(f.role))) == f
  {
  }

  /** The detail reply: a record, a body without `data` (reading its fields throws), or a thrown fetch. */
  datatype Detail = Found(record: Record) | NoData | DetailThrew

  /** The validation guard `!fullName || !email`. */
  predicate Incomplete(f: Form)
  {
    f.fullName == "" || f.email == ""
  }

  const Required := "Please fill in all required fields."
  const UpdateFailed := "Failed to update user."

  /** The user's detail page, `/admin/users/${id}`. */
  function DetailPath(id: string): (path: string)
    ensures |path| >= |"/admin/users/"| && path[..|"/admin/users/"|] == "/admin/users/"
    ensures path[|"/admin/users/"|..] == id
  {
    "/admin/users/" + id
  }

  /** The PUT's outcome: an ok or non-ok response, or a thrown fetch with its message. */
  datatype Reply = Ok | NotOk | Threw(message: string)

  class Page {
    const id: string
    var form: Form
    var error: Option<string>
    var loading: bool
    var location: Option<string>
    /** Each PUT body with the value `loading` had while it was in flight. */
    var puts: seq<(Form, bool)>

    constructor (id: string)
      ensures this.id == id && form == Initial && error == None && !loading && location == None && puts == []
    {
      this.id := id;
      form, error, loading, location, puts := Initial, None, false, None, [];
    }

    /** `fetchUserDetail`: a found record replaces the whole form; any failure leaves it as it was. */
    method FetchUserDetail(reply: Detail)
      modifies this
      ensures reply.Found? ==> form == FormOf(reply.record)
      ensures !reply.Found? ==> form == old(form)
      ensures error == old(error) && loading == old(loading) && location == old(location) && puts == old(puts)
    {
      if reply.Found? {
        form := FormOf(reply.record);
      }
    }

    method HandleChange(field: Field, value: string)
      modifies this
      ensures form == With(old(form), field, value)
      ensures error == old(error) && loading == old(loading) && location == old(location) && puts == old(puts)
    {
      form := With(form, field, value);
    }

    /** `handleSubmit` */
    method HandleSubmit(reply: Reply)
      modifies this
      ensures form == old(form)
      ensures Incomplete(form) ==>
        error == Some(Required) && puts == old(puts) && location == old(location) && loading == old(loading)
      ensures !Incomplete(form) ==> !loading && puts == old(puts) + [(form, true)]
      ensures !Incomplete(form) && reply.Ok? ==> error == None && location == Some(DetailPath(id))
      ensures !Incomplete(form) && reply.NotOk? ==> error == Some(UpdateFailed) && location == old(location)
      ensures !Incomplete(form) && reply.Threw? ==> error == Some(reply.message) && location == old(location)
    {
      if Incomplete(form) {
        error := Some(Required);
        return;
      }
      error := None;
      loading := true;
      puts := puts + [(form, loading)];
      match reply {
        case Ok => location := Some(DetailPath(id));
        case NotOk => error := Some(UpdateFailed);
        case Threw(m) => error := Some(m);
      }
      loading := false;
    }
  }
}
