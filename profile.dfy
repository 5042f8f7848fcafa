/**
 * The profile page and its settings dialog (src/app/profile/profile.component.ts):
 * the route decides whose profile it is, the dialog's tab decides what the save
 * button does, and each save path clears the loading state when its answer comes.
 */
module Profile {
  import opened Wrappers
  import opened Strings
  import opened Dtos
  import opened Http
  import opened Utils
  import opened Content
  import Account

  const SettingsTabs: seq<string> := ["Profile", "Account details", "Username", "Password"]

  const BirthdayReason := " Your birthday cannot be in the future!"
  const EmailReason := " Your email has an invalid format!"
  const ReasonsIntro := "Could not update your information because of the following reasons(s):"
  const UpdateFailed := "Something went wrong while updating your profile information. Please try again later!"
  const UpdateDone := "Profile information updated!"
  const UsernameEmpty := "Username cannot be empty!"
  const UsernameTaken := "Username already in use. Try a different one!"
  const UsernameFailed := "Something went wrong while changing your username. Please try again later!"
  const PasswordEmpty := "Password cannot be empty!"
  const PasswordMismatch := "New password and retype password do not match!"
  const OldPasswordWrong := "The given old password is not correct!"
  const PasswordFailed := "Something went wrong while changing your password. Please try again later!"

  /** The save button's text for a tab; `None` leaves the text as it is. */
  function SaveButtonText(tab: string): (text: Option<string>)
    ensures text == Some("Save") <==> tab == SettingsTabs[0] || tab == SettingsTabs[1]
    ensures text == Some("Change username") <==> tab == SettingsTabs[2]
    ensures text == Some("Change password") <==> tab == SettingsTabs[3]
    ensures text == None <==> tab !in SettingsTabs
  {
    if tab == SettingsTabs[0] || tab == SettingsTabs[1] then Some("Save")
    else if tab == SettingsTabs[2] then Some("Change username")
    else if tab == SettingsTabs[3] then Some("Change password")
    else None
  }

  /**
   * The reasons a profile update was refused, collected from the error body with
   * `includes`: the birthday reason before the email reason. `None` when the body
   * has no `includes` (null, a number or another object), on which the handler throws.
   */
  function UpdateErrorReasons(body: ErrorBody): (reasons: Option<seq<string>>)
    ensures reasons.None? <==> Includes(body, InvalidBirthday).None?
    ensures reasons.None? <==> !(body.CodeListBody? || body.TextListBody? || body.TextBody?)
    ensures reasons.Some? ==> |reasons.value| <= 2
    ensures reasons.Some? ==> forall i :: 0 <= i < |reasons.value| ==>
              reasons.value[i] == BirthdayReason || reasons.value[i] == EmailReason
    ensures reasons.Some? ==> (BirthdayReason in reasons.value <==> Includes(body, InvalidBirthday) == Some(true))
    ensures reasons.Some? ==> (EmailReason in reasons.value <==> Includes(body, InvalidEmail) == Some(true))
    ensures reasons.Some? && |reasons.value| == 2 ==> reasons.value == [BirthdayReason, EmailReason]
  {
    match Includes(body, InvalidBirthday)
    case None => None
    case Some(birthday) =>
      assert BirthdayReason[6] != EmailReason[6];
      Some((if birthday then [BirthdayReason] else []) + (if Includes(body, InvalidEmail).value then [EmailReason] else []))
  }

  /** The detail of the message for refused profile data. */
  function UpdateErrorDetail(reasons: seq<string>): string {
    if |reasons| > 0 then ReasonsIntro + Join(reasons, ',') else UpdateFailed
  }

  /** The message lists the reasons after the introduction, and the list can be read back from it. */
  /**
   * The message for each outcome of the two `includes` tests: both reasons joined by
   * ",", one reason alone, or the generic failure when neither code is present.
   */
  lemma UpdateErrorOutcomes(body: ErrorBody)
    ensures Includes(body, InvalidBirthday) == Some(true) && Includes(body, InvalidEmail) == Some(true) ==>
              UpdateErrorReasons(body).Some?
              && UpdateErrorDetail(UpdateErrorReasons(body).value) == ReasonsIntro + BirthdayReason + "," + EmailReason
    ensures Includes(body, InvalidBirthday) == Some(true) && Includes(body, InvalidEmail) == Some(false) ==>
              UpdateErrorReasons(body).Some?
              && UpdateErrorDetail(UpdateErrorReasons(body).value) == ReasonsIntro + BirthdayReason
    ensures Includes(body, InvalidBirthday) == Some(false) && Includes(body, InvalidEmail) == Some(true) ==>
              UpdateErrorReasons(body).Some?
              && UpdateErrorDetail(UpdateErrorReasons(body).value) == ReasonsIntro + EmailReason
    ensures Includes(body, InvalidBirthday) == Some(false) && Includes(body, InvalidEmail) == Some(false) ==>
              UpdateErrorReasons(body).Some? && UpdateErrorDetail(UpdateErrorReasons(body).value) == UpdateFailed
  {
    var reasons := UpdateErrorReasons(body);
    if reasons.Some? {
      var birthday := Includes(body, InvalidBirthday).value;
      var email := Includes(body, InvalidEmail).value;
      assert reasons.value == (if birthday then [BirthdayReason] else []) + (if email then [EmailReason] else []);
      DetailOfReasons(birthday, email);
    }
  }

  lemma DetailOfReasons(birthday: bool, email: bool)
    ensures birthday && email ==>
              UpdateErrorDetail([BirthdayReason] + [EmailReason]) == ReasonsIntro + BirthdayReason + "," + EmailReason
    ensures birthday && !email ==> UpdateErrorDetail([BirthdayReason] + []) == ReasonsIntro + BirthdayReason
    ensures !birthday && email ==> UpdateErrorDetail([] + [EmailReason]) == ReasonsIntro + EmailReason
    ensures !birthday && !email ==> UpdateErrorDetail([] + []) == UpdateFailed
  {
    if birthday && email {
      assert [BirthdayReason] + [EmailReason] == [BirthdayReason, EmailReason];
      assert Join([BirthdayReason, EmailReason], ',') == BirthdayReason + "," + EmailReason;
    } else if birthday {
      assert [BirthdayReason] + [] == [BirthdayReason];
    } else if email {
      assert [] + [EmailReason] == [EmailReason];
    }
  }

  lemma UpdateErrorDetailReadsBack(reasons: seq<string>)
    requires |reasons| > 0
    requires forall i :: 0 <= i < |reasons| ==> ',' !in reasons[i]
    ensures UpdateErrorDetail(reasons)[..|ReasonsIntro|] == ReasonsIntro
    ensures Split(UpdateErrorDetail(reasons)[|ReasonsIntro|..], ',') == reasons
  {
    var detail := UpdateErrorDetail(reasons);
    assert detail[|ReasonsIntro|..] == Join(reasons, ',');
    SplitJoin(reasons, ',');
  }

  /** The fields of the settings form that an update sends. */
  function UpdateRequestOf(model: UserData): UserDataUpdate {
    UserDataUpdate(model.displayName, model.email, model.phoneNumber, model.birthday, model.gender)
  }

  const EmptySettings := UserData(-1, 0, "", None, User, None, None, None, None, None)

  class ProfileComponent {
    var posts: seq<Post>
    var user: Option<UserProfile>
    var isMe: bool
    /** The route parameter; `None` when the route names no user. */
    var username: Option<string>
    var settingsVisible: bool
    var currentSettingsTab: string
    var tabControlEnabled: bool
    var saveBtnText: string
    var saveBtnLoading: bool
    var userData: Option<UserData>
    var settingsModel: UserData
    var usernameForm: string
    var oldPassword: string
    var newPassword: string
    var retypeNewPassword: string
    const messageService: MessageService
    ghost var requests: seq<Call>

    /** The tab selector is disabled exactly while saving. */
    ghost predicate Valid()
      reads this
    {
      tabControlEnabled == !saveBtnLoading
    }

    constructor (messageService: MessageService)
      ensures Valid() && this.messageService == messageService
      ensures posts == [] && user == None && !isMe && username == Some("")
      ensures !settingsVisible && currentSettingsTab == SettingsTabs[0] && saveBtnText == "Save"
      ensures !saveBtnLoading && userData == None && settingsModel == EmptySettings
      ensures usernameForm == "" && oldPassword == "" && newPassword == "" && retypeNewPassword == ""
      ensures requests == []
    {
      this.messageService := messageService;
      posts := [];
      user := None;
      isMe := false;
      username := Some("");
      settingsVisible := false;
      currentSettingsTab := SettingsTabs[0];
      tabControlEnabled := true;
      saveBtnText := "Save";
      saveBtnLoading := false;
      userData := None;
      settingsModel := EmptySettings;
      usernameForm := "";
      oldPassword := "";
      newPassword := "";
      retypeNewPassword := "";
      requests := [];
    }

    /** The route's parameters: it is one's own profile exactly when no username is given. */
    method OnRouteParams(routeUsername: Option<string>, now: Timestamp)
      requires Valid()
      modifies this
      ensures Valid()
      ensures username == routeUsername && isMe == !Account.Truthy(routeUsername)
      ensures requests == old(requests) + [Account(Account.GetUserProfile(routeUsername))]
                        + (if isMe then [Account(Account.GetUserData())] else [])
                        + [UserFeed(now, routeUsername)]
      ensures unchanged(this`posts, this`user, this`settingsVisible, this`currentSettingsTab, this`saveBtnText)
      ensures unchanged(this`saveBtnLoading, this`tabControlEnabled, this`userData, this`settingsModel)
      ensures unchanged(this`usernameForm, this`oldPassword, this`newPassword, this`retypeNewPassword)
    {
      var profile := Account(Account.GetUserProfile(routeUsername));
      var own := if Account.Truthy(routeUsername) then [] else [Account(Account.GetUserData())];
      var feed := UserFeed(now, routeUsername);
      username := routeUsername;
      isMe := !Account.Truthy(routeUsername);
      requests := requests + [profile] + own + [feed];
    }

    /** The profile arrived: it is shown, and nothing else changes. */
    method OnUserProfile(res: UserProfile)
      requires Valid()
      modifies this
      ensures Valid() && user == Some(res) && requests == old(requests)
      ensures unchanged(this`posts, this`isMe, this`username, this`settingsVisible, this`currentSettingsTab)
      ensures unchanged(this`saveBtnText, this`saveBtnLoading, this`tabControlEnabled, this`userData)
      ensures unchanged(this`settingsModel, this`usernameForm, this`oldPassword, this`newPassword)
      ensures unchanged(this`retypeNewPassword)
    {
      user := Some(res);
    }

    /** The user's feed arrived: it replaces the posts, and nothing else changes. */
    method OnUserFeed(res: seq<Post>)
      requires Valid()
      modifies this
      ensures Valid() && posts == res && requests == old(requests)
      ensures unchanged(this`user, this`isMe, this`username, this`settingsVisible, this`currentSettingsTab)
      ensures unchanged(this`saveBtnText, this`saveBtnLoading, this`tabControlEnabled, this`userData)
      ensures unchanged(this`settingsModel, this`usernameForm, this`oldPassword, this`newPassword)
      ensures unchanged(this`retypeNewPassword)
    {
      posts := res;
    }

    /** A new tab: the button text follows it; an unknown tab leaves the text. */
    method OnTabChange(tab: string)
      requires Valid()
      modifies this
      ensures Valid() && currentSettingsTab == tab
      ensures saveBtnText == SaveButtonText(tab).GetOr(old(saveBtnText))
      ensures requests == old(requests)
      ensures unchanged(this`posts, this`user, this`isMe, this`username, this`settingsVisible)
      ensures unchanged(this`saveBtnLoading, this`tabControlEnabled, this`userData, this`settingsModel)
      ensures unchanged(this`usernameForm, this`oldPassword, this`newPassword, this`retypeNewPassword)
    {
      currentSettingsTab := tab;
      var text := SaveButtonText(tab);
      if text.Some? {
        saveBtnText := text.value;
      }
    }

    /** `saveBtnLoading.next(b)`: its subscriber disables the tab selector while saving. */
    method SetSaveBtnLoading(b: bool)
      modifies this
      ensures Valid() && saveBtnLoading == b
      ensures unchanged(this`posts, this`user, this`isMe, this`username, this`settingsVisible)
      ensures unchanged(this`currentSettingsTab, this`saveBtnText, this`userData, this`settingsModel)
      ensures unchanged(this`usernameForm, this`oldPassword, this`newPassword, this`retypeNewPassword)
      ensures requests == old(requests)
    {
      saveBtnLoading := b;
      tabControlEnabled := !b;
    }

    /** setUserDate: the settings form becomes a copy of the data and the username form its name. */
    method SetUserDate(data: UserData)
      requires Valid()
      modifies this
      ensures Valid()
      ensures settingsModel == data && usernameForm == data.username && userData == Some(data)
      ensures unchanged(this`posts, this`user, this`isMe, this`username, this`settingsVisible)
      ensures unchanged(this`currentSettingsTab, this`saveBtnText, this`saveBtnLoading)
      ensures unchanged(this`oldPassword, this`newPassword, this`retypeNewPassword)
      ensures requests == old(requests)
    {
      settingsModel := data;
      usernameForm := data.username;
      userData := Some(data);
    }

    /** discard: ignored while saving or without an event target; otherwise hides and resets the settings. */
    method Discard(hasTarget: bool)
      requires Valid()
      modifies this
      ensures Valid()
      ensures old(saveBtnLoading) || !hasTarget ==>
                settingsVisible == old(settingsVisible) && settingsModel == old(settingsModel)
                && usernameForm == old(usernameForm)
      ensures !old(saveBtnLoading) && hasTarget ==> !settingsVisible
      ensures !old(saveBtnLoading) && hasTarget && userData.Some? ==>
                settingsModel == userData.value && usernameForm == userData.value.username
      ensures !old(saveBtnLoading) && hasTarget && userData.None? ==>
                settingsModel == old(settingsModel) && usernameForm == old(usernameForm)
      ensures requests == old(requests)
      ensures unchanged(this`posts, this`user, this`isMe, this`username, this`currentSettingsTab)
      ensures unchanged(this`saveBtnText, this`saveBtnLoading, this`tabControlEnabled, this`userData)
      ensures unchanged(this`oldPassword, this`newPassword, this`retypeNewPassword)
    {
      if saveBtnLoading {
        return;
      }
      if !hasTarget {
        return;
      }
      settingsVisible := false;
      if userData.Some? {
        SetUserDate(userData.value);
      }
    }

    /**
     * save: ignored while saving; otherwise loading is set first. The profile tabs send
     * the form's fields (to `me` on one's own profile); the username tab warns about an
     * empty name but sends the change all the same; the password tab stops with one
     * warning on an empty field or a mismatch. Only the loading state, the requests
     * and the messages change.
     */
    method Save()
      requires Valid()
      modifies this, messageService
      ensures Valid()
      ensures unchanged(this`posts, this`user, this`isMe, this`username, this`settingsVisible)
      ensures unchanged(this`currentSettingsTab, this`saveBtnText, this`userData, this`settingsModel)
      ensures unchanged(this`usernameForm, this`oldPassword, this`newPassword, this`retypeNewPassword)
      ensures old(saveBtnLoading) ==> saveBtnLoading && requests == old(requests)
                                       && messageService.messages == old(messageService.messages)
      ensures !old(saveBtnLoading) && (currentSettingsTab == SettingsTabs[0] || currentSettingsTab == SettingsTabs[1]) ==>
                saveBtnLoading && messageService.messages == old(messageService.messages)
                && requests == old(requests)
                   + [Account(Account.UpdateUserData(if isMe then None else username, UpdateRequestOf(settingsModel)))]
      ensures !old(saveBtnLoading) && currentSettingsTab == SettingsTabs[2] ==>
                requests == old(requests) + [Account(Account.ChangeUserName(usernameForm, None))]
      ensures !old(saveBtnLoading) && currentSettingsTab == SettingsTabs[2] && usernameForm == "" ==>
                !saveBtnLoading
                && messageService.messages == old(messageService.messages) + [GeneralError(UsernameEmpty, Warn, "")]
      ensures !old(saveBtnLoading) && currentSettingsTab == SettingsTabs[2] && usernameForm != "" ==>
                saveBtnLoading && messageService.messages == old(messageService.messages)
      ensures !old(saveBtnLoading) && currentSettingsTab == SettingsTabs[3]
              && (oldPassword == "" || newPassword == "" || retypeNewPassword == "") ==>
                !saveBtnLoading && requests == old(requests)
                && messageService.messages == old(messageService.messages) + [GeneralError(PasswordEmpty, Warn, "")]
      ensures !old(saveBtnLoading) && currentSettingsTab == SettingsTabs[3]
              && oldPassword != "" && newPassword != "" && retypeNewPassword != ""
              && newPassword != retypeNewPassword ==>
                !saveBtnLoading && requests == old(requests)
                && messageService.messages == old(messageService.messages) + [GeneralError(PasswordMismatch, Warn, "")]
      ensures !old(saveBtnLoading) && currentSettingsTab == SettingsTabs[3]
              && oldPassword != "" && newPassword != "" && newPassword == retypeNewPassword ==>
                saveBtnLoading && messageService.messages == old(messageService.messages)
                && requests == old(requests) + [Account(Account.ChangePassword(oldPassword, newPassword, None))]
      ensures !old(saveBtnLoading) && currentSettingsTab !in SettingsTabs ==>
                saveBtnLoading && requests == old(requests) && messageService.messages == old(messageService.messages)
    {
      if saveBtnLoading {
        return;
      }
      SetSaveBtnLoading(true);
      var usernameToUpdate := if isMe then None else username;
      if currentSettingsTab == SettingsTabs[0] || currentSettingsTab == SettingsTabs[1] {
        requests := requests + [Account(Account.UpdateUserData(usernameToUpdate, UpdateRequestOf(settingsModel)))];
      } else if currentSettingsTab == SettingsTabs[2] {
        if usernameForm == "" {
          ShowGeneralError(messageService, UsernameEmpty, Warn, "");
          SetSaveBtnLoading(false);
        }
        requests := requests + [Account(Account.ChangeUserName(usernameForm, None))];
      } else if currentSettingsTab == SettingsTabs[3] {
        if oldPassword == "" || newPassword == "" || retypeNewPassword == "" {
          ShowGeneralError(messageService, PasswordEmpty, Warn, "");
          SetSaveBtnLoading(false);
          return;
        }
        if newPassword != retypeNewPassword {
          ShowGeneralError(messageService, PasswordMismatch, Warn, "");
          SetSaveBtnLoading(false);
          return;
        }
        requests := requests + [Account(Account.ChangePassword(oldPassword, newPassword, None))];
      }
    }

    /**
     * The profile update failed: one message listing the reasons (birthday first) or
     * the generic one, and loading cleared. A body without `includes` makes the
     * handler throw, so nothing changes.
     */
    method OnUpdateUserDataError(err: HttpError)
      requires Valid()
      modifies this, messageService
      ensures Valid()
      ensures UpdateErrorReasons(err.body).None? ==>
                saveBtnLoading == old(saveBtnLoading) && messageService.messages == old(messageService.messages)
      ensures UpdateErrorReasons(err.body).Some? ==>
                !saveBtnLoading
                && messageService.messages == old(messageService.messages)
                     + [GeneralError(UpdateErrorDetail(UpdateErrorReasons(err.body).value))]
      ensures Includes(err.body, InvalidBirthday) == Some(true) && Includes(err.body, InvalidEmail) == Some(true) ==>
                messageService.messages == old(messageService.messages)
                  + [GeneralError(ReasonsIntro + BirthdayReason + "," + EmailReason)]
      ensures Includes(err.body, InvalidBirthday) == Some(true) && Includes(err.body, InvalidEmail) == Some(false) ==>
                messageService.messages == old(messageService.messages) + [GeneralError(ReasonsIntro + BirthdayReason)]
      ensures Includes(err.body, InvalidBirthday) == Some(false) && Includes(err.body, InvalidEmail) == Some(true) ==>
                messageService.messages == old(messageService.messages) + [GeneralError(ReasonsIntro + EmailReason)]
      ensures Includes(err.body, InvalidBirthday) == Some(false) && Includes(err.body, InvalidEmail) == Some(false) ==>
                messageService.messages == old(messageService.messages) + [GeneralError(UpdateFailed)]
      ensures requests == old(requests)
      ensures unchanged(this`posts, this`user, this`isMe, this`username, this`settingsVisible)
      ensures unchanged(this`currentSettingsTab, this`saveBtnText, this`userData, this`settingsModel)
      ensures unchanged(this`usernameForm, this`oldPassword, this`newPassword, this`retypeNewPassword)
    {
      var reasons := UpdateErrorReasons(err.body);
      if reasons.None? {
        return;
      }
      UpdateErrorOutcomes(err.body);
      ShowGeneralError(messageService, UpdateErrorDetail(reasons.value));
      SetSaveBtnLoading(false);
    }

    /** The profile update succeeded: the profile is refetched, the dialog closed, the data taken over. */
    method OnUpdateUserDataSuccess(res: UserData)
      requires Valid()
      modifies this, messageService
      ensures Valid() && !saveBtnLoading && !settingsVisible
      ensures requests == old(requests) + [Account(Account.GetUserProfile(username))]
      ensures settingsModel == res && usernameForm == res.username && userData == Some(res)
      ensures messageService.messages == old(messageService.messages) + [GeneralError(UpdateDone, Info, "")]
      ensures unchanged(this`posts, this`user, this`isMe, this`username, this`currentSettingsTab)
      ensures unchanged(this`saveBtnText, this`oldPassword, this`newPassword, this`retypeNewPassword)
    {
      settingsVisible := false;
      SetUserDate(res);
      ShowGeneralError(messageService, UpdateDone, Info, "");
      SetSaveBtnLoading(false);
      requests := requests + [Account(Account.GetUserProfile(username))];
    }

    /**
     * The username change failed: a warning when the body loosely equals the code for
     * a taken name, an error otherwise; loading cleared.
     */
    method OnChangeUserNameError(err: HttpError)
      requires Valid()
      modifies this, messageService
      ensures Valid() && !saveBtnLoading
      ensures IsCode(err.body, UsernameAlreadyInUse) ==>
                messageService.messages == old(messageService.messages) + [GeneralError(UsernameTaken, Warn, "")]
      ensures !IsCode(err.body, UsernameAlreadyInUse) ==>
                messageService.messages == old(messageService.messages) + [GeneralError(UsernameFailed)]
      ensures requests == old(requests)
      ensures unchanged(this`posts, this`user, this`isMe, this`username, this`settingsVisible)
      ensures unchanged(this`currentSettingsTab, this`saveBtnText, this`userData, this`settingsModel)
      ensures unchanged(this`usernameForm, this`oldPassword, this`newPassword, this`retypeNewPassword)
    {
      if IsCode(err.body, UsernameAlreadyInUse) {
        ShowGeneralError(messageService, UsernameTaken, Warn, "");
      } else {
        ShowGeneralError(messageService, UsernameFailed);
      }
      SetSaveBtnLoading(false);
    }

    /** The username or password change succeeded: loading cleared (the service logs out). */
    method OnCredentialChangeSuccess()
      requires Valid()
      modifies this
      ensures Valid() && !saveBtnLoading
      ensures requests == old(requests)
      ensures unchanged(this`posts, this`user, this`isMe, this`username, this`settingsVisible)
      ensures unchanged(this`currentSettingsTab, this`saveBtnText, this`userData, this`settingsModel)
      ensures unchanged(this`usernameForm, this`oldPassword, this`newPassword, this`retypeNewPassword)
    {
      SetSaveBtnLoading(false);
    }

    /**
     * The password change failed: a warning when the body loosely equals the code for
     * a wrong old password, an error otherwise; loading cleared.
     */
    method OnChangePasswordError(err: HttpError)
      requires Valid()
      modifies this, messageService
      ensures Valid() && !saveBtnLoading
      ensures IsCode(err.body, PasswordIncorrect) ==>
                messageService.messages == old(messageService.messages) + [GeneralError(OldPasswordWrong, Warn, "")]
      ensures !IsCode(err.body, PasswordIncorrect) ==>
                messageService.messages == old(messageService.messages) + [GeneralError(PasswordFailed)]
      ensures requests == old(requests)
      ensures unchanged(this`posts, this`user, this`isMe, this`username, this`settingsVisible)
      ensures unchanged(this`currentSettingsTab, this`saveBtnText, this`userData, this`settingsModel)
      ensures unchanged(this`usernameForm, this`oldPassword, this`newPassword, this`retypeNewPassword)
    {
      if IsCode(err.body, PasswordIncorrect) {
        ShowGeneralError(messageService, OldPasswordWrong, Warn, "");
      } else {
        ShowGeneralError(messageService, PasswordFailed);
      }
      SetSaveBtnLoading(false);
    }
  }
}
