/**
 * `handleCreate` of src/screens/CreatePlaylistScreen.tsx: a name guard and a
 * user guard, a random palette colour, and one awaited creation with the
 * loading flag raised around it. The backend call is not modelled; its error,
 * if any, is a parameter, and `Math.random()` is a parameter in [0, 1).
 */
module CreatePlaylist {
  import opened Wrappers
  import opened Alerts

  const PlaylistColors := ["#FFC107", "#FF5722", "#E91E63", "#9C27B0", "#3F51B5", "#03A9F4", "#009688", "#8BC34A"]

  /**
   * The characters `String.prototype.trim` removes: the ECMAScript
   * WhiteSpace and LineTerminator characters.
   */
  predicate IsWhitespace(c: char): (b: bool)
    ensures '!' <= c <= '~' ==> !b
    ensures c == ' ' || c == '\t' || c == '\n' || c == '\r' || c == '\U{00A0}' || c == '\U{3000}' ==> b
  {
    || c == '\t' || c == '\n' || c == '\U{000B}' || c == '\U{000C}' || c == '\r' || c == ' '
    || c == '\U{00A0}' || c == '\U{1680}' || ('\U{2000}' <= c <= '\U{200A}')
    || c == '\U{2028}' || c == '\U{2029}' || c == '\U{202F}' || c == '\U{205F}'
    || c == '\U{3000}' || c == '\U{FEFF}'
  }

  function TrimStart(s: string): (r: string)
    ensures |r| <= |s| && r == s[|s| - |r|..]
    ensures r != [] ==> !IsWhitespace(r[0])
    ensures forall i :: 0 <= i < |s| - |r| ==> IsWhitespace(s[i])
    decreases |s|
  {
    if s != [] && IsWhitespace(s[0]) then TrimStart(s[1..]) else s
  }

  function TrimEnd(s: string): (r: string)
    ensures |r| <= |s| && r == s[..|r|]
    ensures r != [] ==> !IsWhitespace(r[|r| - 1])
    ensures forall i :: |r| <= i < |s| ==> IsWhitespace(s[i])
    decreases |s|
  {
    if s != [] && IsWhitespace(s[|s| - 1]) then TrimEnd(s[..|s| - 1]) else s
  }

  /** `s.trim()`: s without its leading and trailing whitespace. */
  function Trim(s: string): (r: string)
    ensures |r| <= |s|
    ensures r != "" ==> !IsWhitespace(r[0]) && !IsWhitespace(r[|r| - 1])
  {
    TrimEnd(TrimStart(s))
  }

  /** The trimmed name is empty exactly when every character of the name is whitespace. */
  lemma TrimEmptyIffBlank(s: string)
    ensures Trim(s) == "" <==> forall i :: 0 <= i < |s| ==> IsWhitespace(s[i])
  {
    var t := TrimStart(s);
    if Trim(s) == "" {
      forall i | 0 <= i < |s| ensures IsWhitespace(s[i]) {
        if i >= |s| - |t| {
          assert s[i] == t[i - (|s| - |t|)];
        }
      }
    } else {
      var r := Trim(s);
      assert r[0] == t[0];
      assert s[|s| - |t|] == t[0];
    }
  }

  /** `Math.floor(Math.random() * 8)`, for the random number `random`. */
  function ColorIndex(random: real): (i: int)
    requires 0.0 <= random < 1.0
    ensures 0 <= i < |PlaylistColors|
  {
    (random * |PlaylistColors| as real).Floor
  }

  /** `getRandomColor`: whatever the random number, one of the eight palette colours. */
  function RandomColor(random: real): (c: string)
    requires 0.0 <= random < 1.0
    ensures c in PlaylistColors
  {
    PlaylistColors[ColorIndex(random)]
  }

  datatype CreateError = EmptyName | NotLoggedIn

  /** The two guards, name first. */
  function CheckCreate(name: string, user: Option<string>): (r: Option<CreateError>)
    ensures r == Some(EmptyName) <==> Trim(name) == ""
    ensures r == Some(NotLoggedIn) <==> Trim(name) != "" && user.None?
    ensures r == None <==> Trim(name) != "" && user.Some?
  {
    if Trim(name) == "" then Some(EmptyName)
    else if user.None? then Some(NotLoggedIn)
    else None
  }

  function RejectionAlert(e: CreateError): (a: Alert)
    ensures a.title == ErrorTitle && a.onOk == Dismiss
    ensures e == EmptyName <==> a.message == "Nazwa playlisty nie może być pusta."
  {
    match e
    case EmptyName => Alert(ErrorTitle, "Nazwa playlisty nie może być pusta.", Dismiss)
    case NotLoggedIn => Alert(ErrorTitle, "Musisz być zalogowany, aby tworzyć playlisty.", Dismiss)
  }

  const DefaultCreateErrorMessage := "Nie udało się stworzyć playlisty."

  /** The alert after the creation: success, or the error's message with a fallback when it is empty. */
  function CreatedAlert(createError: Option<string>): (a: Alert)
    ensures createError.None? <==> a.title == "Sukces!"
    ensures createError.Some? ==> a.message == if createError.value == "" then DefaultCreateErrorMessage else createError.value
  {
    match createError
    case None => Alert("Sukces!", "Twoja playlista została utworzona.", Dismiss)
    case Some(message) => Alert(ErrorTitle, if message == "" then DefaultCreateErrorMessage else message, Dismiss)
  }

  /** `createPlaylist(name, userId, color)`. */
  datatype CreateRequest = CreateRequest(name: string, userId: string, color: string)

  datatype Submission = Rejected(alert: Alert) | CreateRequested(request: CreateRequest)

  class CreatePlaylistForm {
    var name: string
    var loading: bool

    constructor ()
      ensures name == "" && !loading
    {
      name, loading := "", false;
    }

    method SetName(name: string)
      modifies this
      ensures this.name == name && loading == old(loading)
    {
      this.name := name;
    }

    /** Up to the awaited creation: the guards, then `setLoading(true)` and the request. */
    method Submit(user: Option<string>, random: real) returns (s: Submission)
      requires 0.0 <= random < 1.0
      modifies this
      ensures name == old(name)
      ensures match CheckCreate(name, user)
        case Some(e) => s == Rejected(RejectionAlert(e)) && loading == old(loading)
        case None => s == CreateRequested(CreateRequest(name, user.value, RandomColor(random))) && loading
    {
      if Trim(name) == "" {
        return Rejected(RejectionAlert(EmptyName));
      }
      if user.None? {
        return Rejected(RejectionAlert(NotLoggedIn));
      }
      loading := true;
      s := CreateRequested(CreateRequest(name, user.value, RandomColor(random)));
    }

    /** After the awaited creation: the alert, whether the screen goes back, and `finally { setLoading(false) }`. */
    method CreateFinished(createError: Option<string>) returns (alert: Alert, goBack: bool)
      modifies this
      ensures !loading && name == old(name)
      ensures alert == CreatedAlert(createError) && goBack == createError.None?
    {
      alert := CreatedAlert(createError);
      goBack := createError.None?;
      loading := false;
    }

    /**
     * The whole handler. At most one playlist is requested: with the untrimmed
     * name, the user's id and a palette colour, when both guards pass.
     */
    method HandleCreate(user: Option<string>, random: real, createError: Option<string>)
      returns (requests: seq<CreateRequest>, alert: Alert, goBack: bool)
      requires 0.0 <= random < 1.0
      modifies this
      ensures name == old(name)
      ensures match CheckCreate(name, user)
        case Some(e) => requests == [] && alert == RejectionAlert(e) && !goBack && loading == old(loading)
        case None =>
          && requests == [CreateRequest(name, user.value, RandomColor(random))]
          && alert == CreatedAlert(createError) && goBack == createError.None? && !loading
      ensures forall i :: 0 <= i < |requests| ==> requests[i].color in PlaylistColors && requests[i].name == name
    {
      var s := Submit(user, random);
      match s
      case Rejected(a) =>
        requests, alert, goBack := [], a, false;
      case CreateRequested(request) =>
        requests := [request];
        alert, goBack := CreateFinished(createError);
    }
  }

  /** The name guard wins: a blank name without a user gets only the name error. */
  lemma NameCheckFirst(name: string)
    requires forall i :: 0 <= i < |name| ==> IsWhitespace(name[i])
    ensures CheckCreate(name, None) == Some(EmptyName)
  {
    TrimEmptyIffBlank(name);
  }
}
