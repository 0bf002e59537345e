/**
 * The profile-creation page's session gate: on mount, checkProfile sends a
 * visitor without a session to /auth, a user who already has a profile row
 * to /dashboard, and shows the form (clears `checking`) only to a user
 * without one. Until then the page renders "Loading...".
 */
module PfpCreate {
  import opened Wrappers

  datatype User = User(id: string)

  /**
   * What the Supabase client answers: whether the client exists, the session
   * user, and whether `profiles` holds a row with a given id (the data of
   * `.single()`, null when there is no row).
   */
  datatype Backend = Backend(available: bool, user: Option<User>, hasProfile: string -> bool)

  const AuthRoute := "/auth"
  const DashboardRoute := "/dashboard"

  /** What one run of the gate does: the route it pushes, and whether it clears `checking`. */
  datatype Decision = Decision(push: Option<string>, showForm: bool)

  /**
   * checkProfile as written. `edit` is the page's `?edit=true` query flag,
   * which the code never reads.
   */
  function Gate(b: Backend, edit: bool): (d: Decision)
    ensures d.push.Some? ==> !d.showForm
  {
    if !b.available then Decision(None, false)
    else if b.user.None? then Decision(Some(AuthRoute), false)
    else if b.hasProfile(b.user.value.id) then Decision(Some(DashboardRoute), false)
    else Decision(None, true)
  }

  /**
   * The gate the edit links evidently expect: a user who already has a
   * profile and arrives with `?edit=true` stays on the form.
   */
  function IntendedGate(b: Backend, edit: bool): (d: Decision)
    ensures d.push.Some? ==> !d.showForm
  {
    if b.available && b.user.Some? && b.hasProfile(b.user.value.id) && edit then Decision(None, true)
    else Gate(b, edit)
  }

  /** The page's state: the `checking` flag and the routes pushed so far. */
  datatype Page = Page(checking: bool, routes: seq<string>)

  /** useState(true), nothing pushed. */
  const InitialPage := Page(true, [])

  function Apply(p: Page, d: Decision): Page {
    Page(if d.showForm then false else p.checking,
         p.routes + (if d.push.Some? then [d.push.value] else []))
  }

  /** What the page renders: the loading screen while checking, the form after. */
  datatype View = Loading | ProfileForm

  function Render(p: Page): View {
    if p.checking then Loading else ProfileForm
  }

  class PfpCreatePage {
    var checking: bool
    var routes: seq<string>

    function State(): Page
      reads this
    {
      Page(checking, routes)
    }

    constructor()
      ensures State() == InitialPage
    {
      checking := true;
      routes := [];
    }

    method CheckProfile(b: Backend, edit: bool)
      modifies this
      ensures State() == Apply(old(State()), Gate(b, edit))
    {
      if !b.available {
        return;
      }
      if b.user.None? {
        routes := routes + [AuthRoute];
        return;
      }
      var user := b.user.value;
      var profile := b.hasProfile(user.id);
      if profile {
        routes := routes + [DashboardRoute];
      } else {
        checking := false;
      }
    }
  }

  // ------------------------------------------------------------------
  // Properties

  /** The three outcomes of the gate, each with what the page then shows. */
  lemma GateOutcomes(b: Backend, edit: bool)
    ensures var p := Apply(InitialPage, Gate(b, edit));
      && (!b.available ==> p == InitialPage && Render(p) == Loading)
      && (b.available && b.user.None? ==> p == Page(true, [AuthRoute]))
      && (b.available && b.user.Some? && b.hasProfile(b.user.value.id) ==> p == Page(true, [DashboardRoute]))
      && (b.available && b.user.Some? && !b.hasProfile(b.user.value.id) ==> p == Page(false, []) && Render(p) == ProfileForm)
  {
  }

  /** The form is shown exactly to a signed-in user without a profile row. */
  lemma FormIff(b: Backend, edit: bool)
    ensures Render(Apply(InitialPage, Gate(b, edit))) == ProfileForm
            <==> b.available && b.user.Some? && !b.hasProfile(b.user.value.id)
  {
  }

  /** The gate as written does not depend on the edit flag. */
  lemma GateIgnoresEdit(b: Backend)
    ensures Gate(b, true) == Gate(b, false)
  {
  }

  /** An `?edit=true` visit by a user who has a profile is sent back to /dashboard. */
  lemma EditVisitBounced()
    ensures var b := Backend(true, Some(User("u")), id => true);
      Apply(InitialPage, Gate(b, true)) == Page(true, [DashboardRoute])
  {
  }

  /**
   * The intended gate shows the form to an editing user with a profile, and
   * otherwise decides as the written gate does.
   */
  lemma IntendedGateEdits(b: Backend, edit: bool)
    ensures !edit ==> IntendedGate(b, edit) == Gate(b, edit)
    ensures Render(Apply(InitialPage, IntendedGate(b, edit))) == ProfileForm
            <==> b.available && b.user.Some? && (edit || !b.hasProfile(b.user.value.id))
    ensures IntendedGate(b, edit).push.Some? ==> IntendedGate(b, edit) == Gate(b, edit)
  {
  }
}
