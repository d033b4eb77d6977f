/**
 * src/pages/admin/UserCreationPage.jsx: the admin form creating a user. Full name, email and
 * password are required; a complete form is posted while `loading` is up, and only an ok reply
 * navigates back to the user list.
 */
module UserCreationPage {
  import opened Wrappers

  datatype Form = Form(fullname: string, email: string, username: string, phone: string,
                       password: string, role: string)

  /** The `name` attribute of the input `handleChange` is called from. */
  datatype Field = Fullname | Email | Username | Phone | Password | Role

  /** The initial form: every field empty except the role, "end_user". */
  const Initial := Form("", "", "", "", "", "end_user")

  function Get(f: Form, field: Field): string
  {
    match field
    case Fullname => f.fullname
    case Email => f.email
    case Username => f.username
    case Phone => f.phone
    case Password => f.password
    case Role => f.role
  }

  /** `{ ...formData, [name]: value }` */
  function With(f: Form, field: Field, value: string): (r: Form)
    ensures Get(r, field) == value
    ensures forall g :: g != field ==> Get(r, g) == Get(f, g)
  {
    match field
    case Fullname => f.(fullname := value)
    case Email => f.(email := value)
    case Username => f.(username := value)
    case Phone => f.(phone := value)
    case Password => f.(password := value)
    case Role => f.(role := value)
  }

  /** Writing a field twice keeps only the second value. */
  lemma WithTwice(f: Form, field: Field, a: string, b: string)
    ensures With(With(f, field, a), field, b) == With(f, field, b)
  {
  }

  /** The validation guard `!fullname || !email || !password`. */
  predicate Incomplete(f: Form)
  {
    f.fullname == "" || f.email == "" || f.password == ""
  }

  /** The initial form never passes validation, whatever the optional fields hold. */
  lemma InitialIncomplete(username: string, phone: string, role: string)
    ensures Incomplete(With(With(With(Initial, Username, username), Phone, phone), Role, role))
  {
  }

  const Required := "Please fill in all required fields."
  const CreateFailed := "Failed to create user."
  const UserList := "/admin/users"

  /** The POST's outcome: an ok or non-ok response, or a thrown fetch with its message. */
  datatype Reply = Ok | NotOk | Threw(message: string)

  class Page {
    var form: Form
    var error: Option<string>
    var loading: bool
    var location: Option<string>
    /** Each posted form with the value `loading` had while it was in flight. */
    var posts: seq<(Form, bool)>

    constructor ()
      ensures form == Initial && error == None && !loading && location == None && posts == []
    {
      form, error, loading, location, posts := Initial, None, false, None, [];
    }

    method HandleChange(field: Field, value: string)
      modifies this
      ensures form == With(old(form), field, value)
      ensures error == old(error) && loading == old(loading) && location == old(location) && posts == old(posts)
    {
      form := With(form, field, value);
    }

    /** `handleSubmit` */
    method HandleSubmit(reply: Reply)
      modifies this
      ensures form == old(form)
      ensures Incomplete(form) ==>
        error == Some(Required) && posts == old(posts) && location == old(location) && loading == old(loading)
      ensures !Incomplete(form) ==> !loading
      ensures !Incomplete(form) ==> posts == old(posts) + [(form, true)]
      ensures !Incomplete(form) && reply.Ok? ==> error == None && location == Some(UserList)
      ensures !Incomplete(form) && reply.NotOk? ==> error == Some(CreateFailed) && location == old(location)
      ensures !Incomplete(form) && reply.Threw? ==> error == Some(reply.message) && location == old(location)
    {
      if Incomplete(form) {
        error := Some(Required);
        return;
      }
      error := None;
      loading := true;
      posts := posts + [(form, loading)];
      match reply {
        case Ok => location := Some(UserList);
        case NotOk => error := Some(CreateFailed);
        case Threw(m) => error := Some(m);
      }
      loading := false;
    }
  }
}
