/**
  The web front end's accounts and chat entry point (core/src/ui/app.py): an
  in-memory table of users and passwords with its register and login
  actions, and the chat handler's choice of the id a turn runs under.
 */
module AuthApp {
  import opened Wrappers
  import opened ChatWorkflow

  const FillBothFields: string := "\U{26A0}\U{FE0F} Please fill in both fields."
  const UsernameTaken: string := "\U{274C} Username already exists."
  const InvalidLogin: string := "\U{274C} Invalid login."

  function AccountCreated(user: string): string
  {
    "\U{2705} Account created for " + user + "! You can now login."
  }

  /** What a login updates: the auth page's and the app page's visibility, the status line and the session's user. */
  datatype LoginView = LoginView(authVisible: bool, appVisible: bool, status: string, currentUser: string)

  /** The module-level `USERS` dict. */
  class AccountTable {
    var users: map<string, string>

    constructor ()
      ensures users == map["sanzhar" := "admin123", "sister" := "math123"]
    {
      users := map["sanzhar" := "admin123", "sister" := "math123"];
    }

    /** `USERS.get(username) == password`: a missing user never matches. */
    predicate Matches(username: string, password: string)
      reads this
    {
      username in users && users[username] == password
    }

    /**
      `login_action`: when the password matches, the auth page hides, the app
      shows, and the session's user becomes the username; otherwise the auth
      page stays, the app hides, and the session has no user.
     */
    function Login(username: string, password: string): (v: LoginView)
      reads this
      ensures v.appVisible <==> Matches(username, password)
      ensures v.authVisible == !v.appVisible
      ensures v.appVisible ==> v.status == "Logged in as: **" + username + "**" && v.currentUser == username
      ensures !v.appVisible ==> v.status == InvalidLogin && v.currentUser == ""
    {
      if Matches(username, password) then LoginView(false, true, "Logged in as: **" + username + "**", username)
      else LoginView(true, false, InvalidLogin, "")
    }

    /**
      `register_action`: an empty field gets the warning and an existing user
      the error, and the table does not change; otherwise the table gains
      exactly the new user and password, and logging in with them succeeds.
     */
    method Register(newUser: string, newPass: string) returns (status: string)
      modifies this
      ensures newUser == "" || newPass == "" ==> status == FillBothFields && users == old(users)
      ensures newUser != "" && newPass != "" && newUser in old(users) ==> status == UsernameTaken && users == old(users)
      ensures newUser != "" && newPass != "" && newUser !in old(users) ==>
                && status == AccountCreated(newUser)
                && users == old(users)[newUser := newPass]
                && Login(newUser, newPass).appVisible
      ensures forall u :: u in old(users) ==> u in users && users[u] == old(users)[u]
    {
      if newUser == "" || newPass == "" {
        return FillBothFields;
      }
      if newUser in users {
        return UsernameTaken;
      }
      users := users[newUser := newPass];
      status := AccountCreated(newUser);
    }
  }

  /** `active_id`: the user's name, or `"guest_user"` when the session has none. */
  function ActiveId(userName: string): (id: string)
    ensures id != ""
    ensures userName != "" ==> id == userName
    ensures userName == "" ==> id == "guest_user"
  {
    if userName != "" then userName else "guest_user"
  }

  /** The arguments `chat_handler` starts a workflow run with: the name as it is, the id with its fallback. */
  function ChatHandlerEvent(message: string, userName: string): StartEvent
  {
    StartEvent(Some(message), Some(userName), Some(ActiveId(userName)))
  }

  /**
    A guest turn never gets past the first step's guard: the name is passed
    on as it is, empty, and the guard wants every argument truthy, so the
    `"guest_user"` id is never used.
   */
  lemma GuestTurnNotReady(w: RagChatWorkflow, message: string)
    ensures !w.Ready(ChatHandlerEvent(message, ""))
  {
  }

  /** The handler with the fallback applied to the name as well, as the guest id evidently intends. */
  function GuestChatHandlerEvent(message: string, userName: string): StartEvent
  {
    StartEvent(Some(message), Some(ActiveId(userName)), Some(ActiveId(userName)))
  }

  /** Then a guest turn with a question passes the guard whenever there is a router retriever. */
  lemma GuestTurnReady(w: RagChatWorkflow, message: string, userName: string)
    requires message != "" && w.routerRetriever != null
    ensures w.Ready(GuestChatHandlerEvent(message, userName))
  {
  }
}
