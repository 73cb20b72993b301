/** How the client's input checks relate to the server's: every input
    the server accepts passes the client, but the client lets through
    usernames longer than 50 characters, emails without a top-level
    domain and passwords that break the server's policy. */
module ValidationAgreement {
  import opened Ascii
  import UserRules
  import PasswordService
  import ClientValidation
  import RegisterViewModel

  lemma WordCharNotWhitespace(c: char)
    requires IsWordChar(c)
    ensures !IsWhitespace(c)
  {
  }

  /** A username the server accepts passes the client's check. */
  lemma ServerUsernamePassesClient(username: string)
    requires UserRules.IsValidUsername(username)
    ensures RegisterViewModel.ValidateUsername(username).None?
  {
    WordCharNotWhitespace(username[0]);
  }

  /** A username the client accepts is accepted by the server exactly
      when it has at most 50 characters. */
  lemma ClientUsernameOnServer(username: string)
    requires RegisterViewModel.ValidateUsername(username).None?
    ensures UserRules.IsValidUsername(username) <==> |username| <= 50
  {
  }

  /** 51 letters: the client accepts, the server rejects. */
  lemma LongUsernameOnlyClientAccepts()
    ensures var u := seq(51, _ => 'a');
            RegisterViewModel.ValidateUsername(u).None? && !UserRules.IsValidUsername(u)
  {
    var u := seq(51, _ => 'a');
    assert IsWordChar(u[0]);
    WordCharNotWhitespace(u[0]);
  }

  /** An email the server accepts passes the client's check. */
  lemma ServerEmailPassesClient(email: string)
    requires UserRules.IsValidEmail(email)
    ensures ClientValidation.ValidateEmail(email).None?
  {
    UserRules.IsValidEmailCorrect(email);
    var k, d :| UserRules.EmailSplit(email, k, d);
    assert email[k] == '@';
  }

  /** "a@b": the client accepts, the server rejects. */
  lemma DomainlessEmailOnlyClientAccepts()
    ensures ClientValidation.ValidateEmail("a@b").None? && !UserRules.IsValidEmail("a@b")
  {
    UserRules.NoTopLevelDomainExample();
    assert "a@b"[1] == '@';
    assert !IsWhitespace("a@b"[0]);
  }

  /** A password the server's policy accepts passes the client's check. */
  lemma StrongPasswordPassesClient(password: string)
    requires PasswordService.StrongPassword(password)
    ensures ClientValidation.ValidatePassword(password).None?
  {
    var i :| 0 <= i < |password| && PasswordService.InClass(password[i], PasswordService.Digits);
    assert !IsWhitespace(password[i]);
  }

  /** Six to seven characters pass the client's check but always break the
      server's minimum length. */
  lemma ShortPasswordOnlyClientAccepts(password: string)
    requires 6 <= |password| < 8 && !IsBlank(password)
    ensures ClientValidation.ValidatePassword(password).None?
    ensures PasswordService.TooShortMessage in PasswordService.PasswordErrors(password)
  {
    PasswordService.LengthMessages(password);
  }
}
