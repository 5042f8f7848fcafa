/**
 * The sign-in page (src/app/login/login.component.ts): two required fields, a
 * loading state that disables them, and after a successful sign-in a navigation to
 * the `ref` query parameter with the start page as fallback.
 */
module Login {
  import opened Wrappers
  import opened Dtos
  import opened Http
  import opened Utils
  import opened Content
  import Account
  import Register

  const ConnectionError := "An error occured while connecting to the server, please try again later!"
  const WrongCredentials := "Username or password wrong, please try again!"
  const StartPage := "/"

  /** How the router's promise for a navigation settles. */
  datatype NavigationResult = Resolved(succeeded: bool) | Rejected

  /**
   * The navigations a successful sign-in asks for: `ref` when it is given, followed
   * by the start page if that navigation fails; the start page alone without `ref`.
   */
  function Navigations(ref: Option<string>, refResult: NavigationResult): (targets: seq<string>)
    ensures 1 <= |targets| <= 2
    ensures Account.Truthy(ref) ==> targets[0] == ref.value
    ensures !Account.Truthy(ref) ==> targets == [StartPage]
    ensures |targets| == 2 <==> Account.Truthy(ref) && refResult != Resolved(true)
    ensures |targets| == 2 ==> targets[1] == StartPage
  {
    if Account.Truthy(ref) then
      [ref.value] + (if refResult == Resolved(true) then [] else [StartPage])
    else [StartPage]
  }

  /** Where the user ends up: the last navigation asked for. */
  function Destination(ref: Option<string>, refResult: NavigationResult): string {
    var targets := Navigations(ref, refResult);
    targets[|targets| - 1]
  }

  /** The user lands on `ref` exactly when it is given and the router reaches it; otherwise on the start page. */
  lemma DestinationIsRefOrStart(ref: Option<string>, refResult: NavigationResult)
    ensures Account.Truthy(ref) && refResult == Resolved(true) ==> Destination(ref, refResult) == ref.value
    ensures !(Account.Truthy(ref) && refResult == Resolved(true)) ==> Destination(ref, refResult) == StartPage
  {
  }

  class LoginComponent {
    var username: Option<string>
    var password: Option<string>
    /** The enabled state of both controls, which are switched together. */
    var controlsEnabled: bool
    var loading: bool
    const messageService: MessageService
    ghost var requests: seq<Call>
    /** Navigation intents (`router.navigate`), in order. */
    ghost var navigations: seq<string>

    /** The controls are disabled exactly while loading. */
    ghost predicate Valid()
      reads this
    {
      controlsEnabled == !loading
    }

    constructor (messageService: MessageService)
      ensures Valid() && this.messageService == messageService
      ensures username == Some("") && password == Some("")
      ensures !loading && requests == [] && navigations == []
    {
      this.messageService := messageService;
      username := Some("");
      password := Some("");
      controlsEnabled := true;
      loading := false;
      requests := [];
      navigations := [];
    }

    /** Both fields pass their `required` validator. */
    predicate FieldsValid()
      reads this
    {
      Register.RequiredValid(username, controlsEnabled) && Register.RequiredValid(password, controlsEnabled)
    }

    /** setLoading: sets the flag, and disables the controls when set and enables them when cleared. */
    method SetLoading(isLoading: bool)
      modifies this
      ensures Valid() && loading == isLoading && controlsEnabled == !isLoading
      ensures username == old(username) && password == old(password)
      ensures requests == old(requests) && navigations == old(navigations)
    {
      loading := isLoading;
      if isLoading {
        controlsEnabled := false;
      } else {
        controlsEnabled := true;
      }
    }

    /**
     * login: nothing while loading or with an invalid (or null) field; otherwise
     * loading is set, disabling both controls, before the credentials go out.
     */
    method Login()
      requires Valid()
      modifies this
      ensures Valid()
      ensures old(loading) || !old(FieldsValid()) ==> loading == old(loading) && requests == old(requests)
      ensures !old(loading) && old(FieldsValid()) ==>
                loading && !controlsEnabled
                && requests == old(requests) + [Account(Account.LoginRequest(old(username).value, old(password).value))]
      ensures username == old(username) && password == old(password) && navigations == old(navigations)
    {
      if loading {
        return;
      }
      if !FieldsValid() {
        return;
      }
      var usernameVal, passwordVal := username.value, password.value;
      SetLoading(true);
      requests := requests + [Account(Account.LoginRequest(usernameVal, passwordVal))];
    }

    /** The request failed: one error message and loading cleared. */
    method OnLoginError(err: HttpError)
      modifies this, messageService
      ensures Valid() && !loading
      ensures messageService.messages == old(messageService.messages) + [Message(Error, Some("Error"), ConnectionError)]
      ensures requests == old(requests) && navigations == old(navigations)
      ensures username == old(username) && password == old(password)
    {
      messageService.Add(Message(Error, Some("Error"), ConnectionError));
      SetLoading(false);
    }

    /**
     * The server answered with the token text. An empty text is a refusal: one warning
     * and loading cleared. Otherwise the user is sent on as `Navigations` says, with
     * `ref` taken from the query parameters, and loading stays set.
     */
    method OnLoginResponse(res: string, ref: Option<string>, refResult: NavigationResult)
      modifies this, messageService
      ensures res == "" ==>
                Valid() && !loading && navigations == old(navigations)
                && messageService.messages == old(messageService.messages) + [Message(Warn, None, WrongCredentials)]
      ensures res != "" ==>
                loading == old(loading) && controlsEnabled == old(controlsEnabled)
                && navigations == old(navigations) + Navigations(ref, refResult)
                && messageService.messages == old(messageService.messages)
      ensures requests == old(requests)
      ensures username == old(username) && password == old(password)
    {
      if res != "" {
        if Account.Truthy(ref) {
          navigations := navigations + [ref.value];
          match refResult
          case Resolved(succeeded) =>
            if !succeeded {
              navigations := navigations + [StartPage];
            }
          case Rejected =>
            navigations := navigations + [StartPage];
        } else {
          navigations := navigations + [StartPage];
        }
      } else {
        messageService.Add(Message(Warn, None, WrongCredentials));
        SetLoading(false);
      }
    }
  }
}
