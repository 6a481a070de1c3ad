/** The nomination dashboard: the profile box (avatar, initial, display
    name), the five tabs and the panel each shows, and logging out. */
module NominationDashboard {
  import opened Common
  import opened Text

  /** `userProfile`. */
  datatype Profile = Profile(name: string, email: string, avatarUrl: Option<string>)

  const EmptyProfile: Profile := Profile("", "", None)

  /** The reply to the `profiles` lookup by id; a `null` column reads as "". */
  datatype ProfileReply =
    | LookupFailed
    | NoRow
    | Row(fullName: string, email: string, avatarUrl: string)

  /** The profile shown for a signed-in user: from the row when there is
      one, each empty column falling back (the name to "", the e-mail to the
      account's, the avatar to none); without a row, the account's e-mail
      alone. */
  function ProfileFrom(u: User, reply: ProfileReply): (p: Profile)
    ensures !reply.Row? ==> p == Profile("", u.email, None)
    ensures reply.Row? ==> p.name == reply.fullName
    ensures reply.Row? && reply.email != "" ==> p.email == reply.email
    ensures reply.Row? && reply.email == "" ==> p.email == u.email
    ensures reply.Row? ==> (p.avatarUrl.None? <==> reply.avatarUrl == "")
    ensures p.avatarUrl.Some? ==> p.avatarUrl.value == reply.avatarUrl
  {
    match reply
    case Row(n, e, a) => Profile(OrDefault(n, ""), OrDefault(e, u.email), OrNull(a))
    case _ => Profile("", u.email, None)
  }

  /** The profile always carries an e-mail when the account has one, and an
      avatar only when it is non-empty. */
  lemma ProfileFromFacts(u: User, reply: ProfileReply)
    ensures u.email != "" ==> ProfileFrom(u, reply).email != ""
    ensures ProfileFrom(u, reply).avatarUrl.Some? ==> ProfileFrom(u, reply).avatarUrl.value != ""
  {
  }

  /** What the avatar slot shows. */
  datatype AvatarView = Placeholder | Image(url: string) | Initial(letter: string)

  /** The letter of the fallback avatar: the first character of the name, or
      of the e-mail when the name is empty, in upper case. */
  function InitialOf(p: Profile): (r: string)
    ensures |r| <= 1
    ensures p.name != "" ==> r == [UpperChar(p.name[0])]
    ensures p.name == "" && p.email != "" ==> r == [UpperChar(p.email[0])]
    ensures p.name == "" && p.email == "" ==> r == ""
  {
    Upper(CharAt0(if Truthy(p.name) then p.name else p.email))
  }

  function Avatar(loading: bool, p: Profile): AvatarView {
    if loading then Placeholder
    else if p.avatarUrl.Some? && Truthy(p.avatarUrl.value) then Image(p.avatarUrl.value)
    else Initial(InitialOf(p))
  }

  /** While loading only the placeholder shows; afterwards the image exactly
      when there is an avatar, and otherwise a letter that is a capital
      whenever the name (or e-mail) starts with a Latin letter. */
  lemma AvatarShows(loading: bool, p: Profile)
    ensures Avatar(loading, p).Placeholder? <==> loading
    ensures Avatar(loading, p).Image? <==> !loading && p.avatarUrl.Some? && p.avatarUrl.value != ""
    ensures var a := Avatar(loading, p); var s := if p.name != "" then p.name else p.email;
      a.Initial? && s != "" && ('a' <= s[0] <= 'z' || 'A' <= s[0] <= 'Z') ==>
        |a.letter| == 1 && 'A' <= a.letter[0] <= 'Z'
  {
  }

  /** `userProfile.name || userProfile.email || "User"`. */
  function DisplayName(p: Profile): (r: string)
    ensures r != ""
    ensures p.name != "" ==> r == p.name
    ensures p.name == "" && p.email != "" ==> r == p.email
    ensures p.name == "" && p.email == "" ==> r == "User"
  {
    OrDefault(p.name, OrDefault(p.email, "User"))
  }

  /** The keys of the five tabs, in order. */
  const TabKeys: seq<string> := ["party", "nomination", "questionnaire", "profile", "password"]

  /** The panel rendered for a tab key. */
  datatype Panel = PartyDocsPanel | NominationPanel | QuestionnairePanel | ProfilePanel | PasswordPanel

  const Panels: seq<Panel> := [PartyDocsPanel, NominationPanel, QuestionnairePanel, ProfilePanel, PasswordPanel]

  /** The panels `activeTab === key` renders, in order. */
  function Rendered(activeTab: string): seq<Panel> {
    (if activeTab == "party" then [PartyDocsPanel] else [])
    + (if activeTab == "nomination" then [NominationPanel] else [])
    + (if activeTab == "questionnaire" then [QuestionnairePanel] else [])
    + (if activeTab == "profile" then [ProfilePanel] else [])
    + (if activeTab == "password" then [PasswordPanel] else [])
  }

  /** The tab keys are distinct, so the active tab renders exactly its own
      panel, and a string that is not a key renders none. */
  lemma OnePanel(activeTab: string)
    ensures |TabKeys| == |Panels| == 5
    ensures forall i :: 0 <= i < 5 && activeTab == TabKeys[i] ==> Rendered(activeTab) == [Panels[i]]
    ensures activeTab !in TabKeys ==> Rendered(activeTab) == []
  {
  }

  /** The dashboard's state; `route` is where it navigated. */
  class Dashboard {
    var activeTab: string
    var profile: Profile
    var loadingProfile: bool
    var loggingOut: bool
    var logoutError: Option<string>
    var route: Option<string>

    constructor ()
      ensures activeTab == "party" && profile == EmptyProfile && loadingProfile
      ensures !loggingOut && logoutError == None && route == None
    {
      activeTab := "party";
      profile := EmptyProfile;
      loadingProfile := true;
      loggingOut := false;
      logoutError := None;
      route := None;
    }

    /** `fetchProfile()`: without a user the page goes back to the login
        page and stays in its loading state. */
    method FetchProfile(session: Option<User>, reply: ProfileReply)
      modifies this
      ensures session.None? ==> route == Some("/") && loadingProfile && profile == old(profile)
      ensures session.Some? ==>
        route == old(route) && !loadingProfile && profile == ProfileFrom(session.value, reply)
      ensures activeTab == old(activeTab) && loggingOut == old(loggingOut)
      ensures logoutError == old(logoutError)
    {
      loadingProfile := true;
      if session.None? {
        route := Some("/");
        return;
      }
      profile := ProfileFrom(session.value, reply);
      loadingProfile := false;
    }

    /** A tab button; the buttons are disabled while logging out. */
    method SelectTab(key: string)
      requires key in TabKeys
      modifies this
      ensures activeTab == if old(loggingOut) then old(activeTab) else key
      ensures profile == old(profile) && loadingProfile == old(loadingProfile)
      ensures loggingOut == old(loggingOut) && logoutError == old(logoutError) && route == old(route)
    {
      if !loggingOut {
        activeTab := key;
      }
    }

    /** `handleLogout()`: on success the page goes to the login page (still
        marked as logging out); on failure the error shows and the buttons
        come back. */
    method HandleLogout(signOutError: Option<string>)
      modifies this
      ensures signOutError.None? ==> route == Some("/") && loggingOut && logoutError == None
      ensures signOutError.Some? ==> route == old(route) && !loggingOut && logoutError == signOutError
      ensures activeTab == old(activeTab) && profile == old(profile)
      ensures loadingProfile == old(loadingProfile)
    {
      loggingOut := true;
      logoutError := None;
      if signOutError.Some? {
        logoutError := signOutError;
        loggingOut := false;
        return;
      }
      route := Some("/");
    }
  }
}
