/**
 * The edit/save toggle of the profile form
 * (posts/javascript_testing/src/components/UserProfile.jsx).
 *
 * The component keeps two pieces of state, `isEditing` and the draft
 * `newUser` (seeded once from the `user` prop). Two input handlers edit the
 * draft; the button handler flips the mode and, when it leaves edit mode,
 * hands the draft to the `onSaveUser` callback. The rendered output is a
 * pure function of the prop and the mode.
 */
module UserProfileForm {
  import opened Wrappers

  /** The `user` prop and the draft `newUser`: a two-field record. */
  datatype User = User(name: string, email: string)

  /** The component's own state: the `isEditing` and `newUser` hooks. */
  datatype Form = Form(isEditing: bool, newUser: User)

  /** handleUserNameChange: the draft takes the input's value as its name. */
  function ChangeName(f: Form, value: string): (f': Form)
    ensures f'.newUser.name == value
    ensures f'.newUser.email == f.newUser.email
    ensures f'.isEditing == f.isEditing
  {
    f.(newUser := f.newUser.(name := value))
  }

  /** handleUserEmailChange: the draft takes the input's value as its email. */
  function ChangeEmail(f: Form, value: string): (f': Form)
    ensures f'.newUser.email == value
    ensures f'.newUser.name == f.newUser.name
    ensures f'.isEditing == f.isEditing
  {
    f.(newUser := f.newUser.(email := value))
  }

  /**
   * handleButtonClick: the mode flips, and `onSaveUser` receives the draft
   * exactly when the mode before the click was editing (the state update is
   * not visible until the next render). The draft is kept as it is.
   */
  function ClickButton(f: Form): (res: (Form, Option<User>))
    ensures res.0.isEditing == !f.isEditing
    ensures res.0.newUser == f.newUser
    ensures res.1.Some? <==> f.isEditing
    ensures res.1.Some? ==> res.1.value == f.newUser
  {
    (f.(isEditing := !f.isEditing), if f.isEditing then Some(f.newUser) else None)
  }

  /** A value cell of the table: read-only text, or a text box with its id and default value. */
  datatype Cell = Text(text: string) | TextBox(id: string, defaultValue: string)

  /** What the component shows: the name cell, the email cell and the button label. */
  datatype View = View(name: Cell, email: Cell, button: string)

  /** The text a cell shows when it is first drawn. */
  function Shown(c: Cell): string {
    match c
    case Text(t) => t
    case TextBox(_, d) => d
  }

  /**
   * The render: both modes show the prop's values (never the draft); edit
   * mode shows them in text boxes, and the button says "Save Changes" while
   * editing and "Edit" otherwise.
   */
  function Render(user: User, isEditing: bool): (v: View)
    ensures Shown(v.name) == user.name && Shown(v.email) == user.email
    ensures v.name.TextBox? <==> isEditing
    ensures v.email.TextBox? <==> isEditing
    ensures isEditing ==> v.name.id == "Name" && v.email.id == "Contact Email"
    ensures v.button == "Save Changes" <==> isEditing
    ensures v.button == "Edit" <==> !isEditing
  {
    if isEditing then
      View(TextBox("Name", user.name), TextBox("Contact Email", user.email), "Save Changes")
    else
      View(Text(user.name), Text(user.email), "Edit")
  }

  /** A user interaction: typing in one of the inputs, or clicking the button. */
  datatype Event = NameChange(value: string) | EmailChange(value: string) | Click

  /** The handler an event triggers, with the save it causes, if any. */
  function Step(f: Form, e: Event): (Form, Option<User>) {
    match e
    case NameChange(v) => (ChangeName(f, v), None)
    case EmailChange(v) => (ChangeEmail(f, v), None)
    case Click => ClickButton(f)
  }

  /** The state after a sequence of interactions, and the calls to `onSaveUser` in order. */
  function Run(f: Form, events: seq<Event>): (Form, seq<User>)
    decreases |events|
  {
    if events == [] then (f, [])
    else
      var (f1, save) := Step(f, events[0]);
      var (f2, saves) := Run(f1, events[1..]);
      (f2, ToSeq(save) + saves)
  }

  /** The number of button clicks among the events. */
  function Clicks(events: seq<Event>): nat
    decreases |events|
  {
    if events == [] then 0
    else (if events[0].Click? then 1 else 0) + Clicks(events[1..])
  }

  /**
   * Clicks alternate between the modes and every second click saves: after
   * c clicks the mode has flipped c times, and starting from view mode
   * `onSaveUser` was called c / 2 times, whatever was typed in between.
   */
  lemma {:induction false} RunClicks(f: Form, events: seq<Event>)
    ensures Run(f, events).0.isEditing == (f.isEditing != (Clicks(events) % 2 == 1))
    ensures |Run(f, events).1| == (Clicks(events) + (if f.isEditing then 1 else 0)) / 2
    decreases |events|
  {
    if events != [] {
      var (f1, save) := Step(f, events[0]);
      RunClicks(f1, events[1..]);
    }
  }

  /**
   * The draft is not reset by a save: with no typing in between, every
   * call to `onSaveUser` receives the same draft again.
   */
  lemma {:induction false} ClicksResaveDraft(f: Form, events: seq<Event>)
    requires forall i :: 0 <= i < |events| ==> events[i] == Click
    ensures Run(f, events).0.newUser == f.newUser
    ensures forall j :: 0 <= j < |Run(f, events).1| ==> Run(f, events).1[j] == f.newUser
    decreases |events|
  {
    if events != [] {
      var (f1, save) := ClickButton(f);
      ClicksResaveDraft(f1, events[1..]);
    }
  }

  /**
   * The editable profile: the `user` prop, the two state hooks, and the
   * calls made to `onSaveUser` so far.
   */
  class UserProfile {
    var user: User
    var isEditing: bool
    var newUser: User
    ghost var saved: seq<User>

    /** The component's own state as a value. */
    function State(): Form
      reads this
    {
      Form(isEditing, newUser)
    }

    /** The output of the current render. */
    function Rendered(): View
      reads this
    {
      Render(user, isEditing)
    }

    /** Mounting: view mode, and the draft is the prop. */
    constructor (user: User)
      ensures this.user == user
      ensures !isEditing && newUser == user
      ensures saved == []
    {
      this.user := user;
      isEditing := false;
      newUser := user;
      saved := [];
    }

    /** A re-render with a new prop: the draft keeps its value, since it is seeded only once. */
    method ReceiveProps(user: User)
      modifies this`user
      ensures this.user == user
      ensures State() == old(State())
    {
      this.user := user;
    }

    /** handleUserNameChange. */
    method HandleUserNameChange(value: string)
      modifies this`newUser
      ensures State() == ChangeName(old(State()), value)
    {
      newUser := newUser.(name := value);
    }

    /** handleUserEmailChange. */
    method HandleUserEmailChange(value: string)
      modifies this`newUser
      ensures State() == ChangeEmail(old(State()), value)
    {
      newUser := newUser.(email := value);
    }

    /** handleButtonClick: the result is the argument `onSaveUser` was called with, if it was. */
    method HandleButtonClick() returns (onSaveUser: Option<User>)
      modifies this`isEditing, this`saved
      ensures (State(), onSaveUser) == ClickButton(old(State()))
      ensures saved == old(saved) + ToSeq(onSaveUser)
    {
      var wasEditing := isEditing;
      isEditing := !wasEditing;
      if wasEditing {
        onSaveUser := Some(newUser);
        saved := saved + [newUser];
      } else {
        onSaveUser := None;
      }
    }
  }

  /**
   * The component test: mount with Bob, check the read-only view, click
   * Edit, check the text boxes, clear the name box and type "Robert" one
   * key at a time, click Save Changes. `onSaveUser` is called exactly once,
   * with the new name and the old email.
   */
  method SaveScenario() returns (before: View, editing: View, saves: seq<User>)
    ensures before == View(Text("Bob"), Text("bob@foo.com"), "Edit")
    ensures editing == View(TextBox("Name", "Bob"), TextBox("Contact Email", "bob@foo.com"), "Save Changes")
    ensures saves == [User("Robert", "bob@foo.com")]
  {
    var profile := new UserProfile(User("Bob", "bob@foo.com"));
    before := profile.Rendered();
    var first := profile.HandleButtonClick();
    editing := profile.Rendered();
    profile.HandleUserNameChange("");
    var typed := "Robert";
    var i := 1;
    while i <= |typed|
      invariant 1 <= i <= |typed| + 1
      invariant profile.newUser == User(typed[..i - 1], "bob@foo.com")
      invariant profile.isEditing && profile.saved == []
    {
      profile.HandleUserNameChange(typed[..i]);
      i := i + 1;
    }
    assert typed[..i - 1] == typed;
    var second := profile.HandleButtonClick();
    saves := ToSeq(first) + ToSeq(second);
    assert profile.saved == saves;
  }
}
