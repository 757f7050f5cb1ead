/** The edit page: the ownership check on load, the form, and the update request. */
module EditPost {
  import opened Common
  import AuthContext

  datatype Form = Form(title: string, category: string, image: string, summary: string, content: string)

  const BlankForm: Form := Form("", "", "", "", "")

  datatype Field = Title | Category | Image | Summary | Content

  /** The fetched post: its author's id, which may be missing, and the editable fields. */
  datatype PostData = PostData(authorId: Option<string>, form: Form)

  const MyPosts: string := "/my-posts"

  /** The ownership check, for a signed-in user: the author or an administrator. */
  predicate CanEdit(authorId: Option<string>, user: AuthContext.User) {
    authorId == Some(user.id) || user.role == AuthContext.Admin
  }

  /** What the load does to the page: the form to show, or a detour to the user's posts. */
  datatype LoadAnswer = Fill(form: Form) | LeaveForMyPosts

  /** The body of the `try` after a 2xx, with the session user read at that moment; without
      a user, reading `user.id` throws and the `catch` sends the page away too. */
  function OnLoaded(outcome: Response<PostData>, user: Option<AuthContext.User>): (a: LoadAnswer)
    ensures a.Fill? <==> outcome.Ok? && user.Some? && CanEdit(outcome.data.authorId, user.value)
    ensures a.Fill? ==> a.form == outcome.data.form
  {
    if outcome.Ok? && user.Some? && CanEdit(outcome.data.authorId, user.value) then Fill(outcome.data.form)
    else LeaveForMyPosts
  }

  /** `{ ...formData, [name]: value }` */
  function HandleChange(f: Form, field: Field, value: string): (r: Form)
    ensures r.title == (if field == Title then value else f.title)
    ensures r.category == (if field == Category then value else f.category)
    ensures r.image == (if field == Image then value else f.image)
    ensures r.summary == (if field == Summary then value else f.summary)
    ensures r.content == (if field == Content then value else f.content)
  {
    match field
    case Title => f.(title := value)
    case Category => f.(category := value)
    case Image => f.(image := value)
    case Summary => f.(summary := value)
    case Content => f.(content := value)
  }

  /** The success toast: an administrator's edit is live, anyone else's awaits approval. */
  function SuccessMessage(user: AuthContext.User): (m: string)
    ensures user.role == AuthContext.Admin <==> m == "Post updated successfully!"
    ensures user.role != AuthContext.Admin <==> m == "Post updated and submitted for approval!"
  {
    if user.role == AuthContext.Admin then "Post updated successfully!"
    else "Post updated and submitted for approval!"
  }

  /** An author can always edit their own post, whatever their role. */
  lemma AuthorCanEdit(user: AuthContext.User, form: Form)
    ensures OnLoaded(Ok(PostData(Some(user.id), form)), Some(user)) == Fill(form)
  {
  }

  /** A post without an author id can be edited by administrators only. */
  lemma OrphanPostAdminOnly(user: AuthContext.User, form: Form)
    ensures OnLoaded(Ok(PostData(None, form)), Some(user)).Fill? <==> user.role == AuthContext.Admin
  {
  }

  class EditPostPage {
    var form: Form
    var loading: bool
    var navigatedTo: Option<string>
    var successToast: Option<string>

    constructor ()
      ensures form == BlankForm && loading && navigatedTo.None? && successToast.None?
    {
      form, loading, navigatedTo, successToast := BlankForm, true, None, None;
    }

    /** The effect: the post is fetched only when both the token and the route id are
        truthy; otherwise nothing happens and "loading" stays on. */
    method OnMount(token: Option<string>, id: Option<string>) returns (fetching: bool)
      ensures fetching <==> Truthy(token) && Truthy(id)
    {
      fetching := Truthy(token) && Truthy(id);
    }

    /** The end of `fetchPost`: whatever happened, loading ends. */
    method OnLoad(outcome: Response<PostData>, user: Option<AuthContext.User>)
      modifies this
      ensures var a := OnLoaded(outcome, user);
        form == (if a.Fill? then a.form else old(form)) &&
        navigatedTo == (if a.Fill? then old(navigatedTo) else Some(MyPosts))
      ensures !loading && successToast == old(successToast)
    {
      var a := OnLoaded(outcome, user);
      if a.Fill? {
        form := a.form;
      } else {
        navigatedTo := Some(MyPosts);
      }
      loading := false;
    }

    method Change(field: Field, value: string)
      modifies this
      ensures form == HandleChange(old(form), field, value)
      ensures loading == old(loading) && navigatedTo == old(navigatedTo) && successToast == old(successToast)
    {
      form := HandleChange(form, field, value);
    }

    /** `handleSubmit` up to the request: the whole form is sent, loaded or not. */
    method Submit() returns (body: Form)
      ensures body == form
    {
      body := form;
    }

    /** The update answer: on a 2xx the toast depends on the role and the page returns to
        the user's posts; reading `user.role` without a user throws, which leaves the page. */
    method OnUpdated(outcome: Response<()>, user: Option<AuthContext.User>)
      modifies this
      ensures outcome.Ok? && user.Some? ==>
        successToast == Some(SuccessMessage(user.value)) && navigatedTo == Some(MyPosts)
      ensures !(outcome.Ok? && user.Some?) ==> successToast == old(successToast) && navigatedTo == old(navigatedTo)
      ensures form == old(form) && loading == old(loading)
    {
      if outcome.Ok? && user.Some? {
        successToast := Some(SuccessMessage(user.value));
        navigatedTo := Some(MyPosts);
      }
    }
  }
}
