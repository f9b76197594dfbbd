/**
 * js/auth.js: the passcode gate. The passcode and the "authenticated" flag
 * live in storage; the modal, the application panel and the input box are
 * reduced to the booleans and the text they show.
 */
module Auth {
  import opened Base
  import opened Utils

  const PasscodeKey := "freelanceos_passcode"
  const AuthenticatedKey := "freelanceos_authenticated"
  /** The passcode in force while none has been stored. */
  const DefaultPasscode := "1234"

  /** The passcode `authenticate` compares against: the stored one, else the default. */
  function SavedPasscode(passcodes: map<string, Item<string>>): string {
    Load(passcodes, PasscodeKey, DefaultPasscode)
  }

  /** Whether `authenticate` lets `entered` in. */
  predicate Accepts(entered: string, passcodes: map<string, Item<string>>) {
    entered == SavedPasscode(passcodes)
  }

  /** With no usable stored passcode exactly "1234" is accepted; with one, exactly that one. */
  lemma AcceptsIff(entered: string, passcodes: map<string, Item<string>>)
    ensures PasscodeKey !in passcodes || !passcodes[PasscodeKey].Parsed? ==>
              (Accepts(entered, passcodes) <==> entered == "1234")
    ensures PasscodeKey in passcodes && passcodes[PasscodeKey].Parsed? ==>
              (Accepts(entered, passcodes) <==> entered == passcodes[PasscodeKey].value)
  {
  }

  /** After a passcode has been stored, it and nothing else is accepted. */
  lemma ChangedPasscodeAccepted(entered: string, p: string, passcodes: map<string, Item<string>>)
    ensures Accepts(entered, passcodes[PasscodeKey := Parsed(p)]) <==> entered == p
  {
  }

  /** The length test of changePasscode: a non-empty string of at least four UTF-16 code units. */
  predicate AcceptablePasscode(p: string) {
    p != "" && Utf16Length(p) >= 4
  }

  /** Two characters outside the Basic Multilingual Plane already make four code units, so they pass. */
  lemma TwoEmojiPasscodeAccepted()
    ensures AcceptablePasscode("\U{1F600}\U{1F600}")
    ensures !AcceptablePasscode("abc")
  {
    assert "\U{1F600}\U{1F600}"[1..] == "\U{1F600}";
    assert "abc"[1..] == "bc" && "bc"[1..] == "c";
  }

  class Auth {
    var isAuthenticated: bool
    /** The text currently in the passcode input box. */
    var passcodeInput: string
    /** The auth modal carries the 'active' class. */
    var modalActive: bool
    /** The application panel is shown. */
    var appShown: bool
    var passcodes: map<string, Item<string>>
    var flags: map<string, Item<bool>>

    /** new Auth(): starts unauthenticated and runs checkAuthStatus. */
    constructor (passcodes: map<string, Item<string>>, flags: map<string, Item<bool>>)
      ensures this.passcodes == passcodes
      ensures isAuthenticated == Load(flags, AuthenticatedKey, false)
      ensures isAuthenticated ==> appShown && !modalActive && this.flags == flags[AuthenticatedKey := Parsed(true)]
      ensures !isAuthenticated ==> !appShown && modalActive && this.flags == flags
      ensures passcodeInput == ""
    {
      isAuthenticated := false;
      passcodeInput := "";
      modalActive := false;
      appShown := false;
      this.passcodes := passcodes;
      this.flags := flags;
      new;
      CheckAuthStatus();
    }

    /** checkAuthStatus: log in when the stored flag says so, otherwise show the modal. */
    method CheckAuthStatus()
      modifies this
      ensures passcodes == old(passcodes) && passcodeInput == old(passcodeInput)
      ensures Load(old(flags), AuthenticatedKey, false) ==>
                isAuthenticated && appShown && !modalActive && flags == old(flags)[AuthenticatedKey := Parsed(true)]
      ensures !Load(old(flags), AuthenticatedKey, false) ==>
                isAuthenticated == old(isAuthenticated) && appShown == old(appShown) && modalActive && flags == old(flags)
    {
      if Load(flags, AuthenticatedKey, false) {
        Login();
      } else {
        modalActive := true;
      }
    }

    /** authenticate: compare the input with the saved passcode. */
    method Authenticate() returns (success: bool)
      modifies this
      ensures success <==> Accepts(old(passcodeInput), old(passcodes))
      ensures passcodes == old(passcodes)
      ensures success ==> isAuthenticated && appShown && !modalActive && passcodeInput == old(passcodeInput)
                          && flags == old(flags)[AuthenticatedKey := Parsed(true)]
      ensures !success ==> isAuthenticated == old(isAuthenticated) && appShown == old(appShown)
                           && modalActive == old(modalActive) && flags == old(flags) && passcodeInput == ""
    {
      success := passcodeInput == SavedPasscode(passcodes);
      if success {
        Login();
        modalActive := false;
      } else {
        passcodeInput := "";
      }
    }

    /** login: mark authenticated in memory and in storage, show the app and hide the modal. */
    method Login()
      modifies this
      ensures isAuthenticated && appShown && !modalActive
      ensures flags == old(flags)[AuthenticatedKey := Parsed(true)]
      ensures Load(flags, AuthenticatedKey, false)
      ensures passcodes == old(passcodes) && passcodeInput == old(passcodeInput)
    {
      isAuthenticated := true;
      flags := flags[AuthenticatedKey := Parsed(true)];
      appShown := true;
      modalActive := false;
    }

    /** logout: clear the flag in memory and in storage, hide the app, show the modal, empty the input. */
    method Logout()
      modifies this
      ensures !isAuthenticated && !appShown && modalActive && passcodeInput == ""
      ensures flags == old(flags)[AuthenticatedKey := Parsed(false)]
      ensures !Load(flags, AuthenticatedKey, false)
      ensures passcodes == old(passcodes)
    {
      isAuthenticated := false;
      flags := flags[AuthenticatedKey := Parsed(false)];
      appShown := false;
      modalActive := true;
      passcodeInput := "";
    }

    /** changePasscode: store a passcode of at least four characters; refuse anything shorter. */
    method ChangePasscode(newPasscode: string) returns (ok: bool)
      modifies this`passcodes
      ensures ok <==> Utf16Length(newPasscode) >= 4
      ensures ok ==> passcodes == old(passcodes)[PasscodeKey := Parsed(newPasscode)]
      ensures ok ==> forall e :: Accepts(e, passcodes) <==> e == newPasscode
      ensures !ok ==> passcodes == old(passcodes)
    {
      ok := AcceptablePasscode(newPasscode);
      if ok {
        passcodes := passcodes[PasscodeKey := Parsed(newPasscode)];
        forall e ensures Accepts(e, passcodes) <==> e == newPasscode {
          ChangedPasscodeAccepted(e, newPasscode, old(passcodes));
        }
      }
    }

    /** getAuthStatus. */
    method GetAuthStatus() returns (r: bool)
      ensures r == isAuthenticated
    {
      r := isAuthenticated;
    }
  }
}
