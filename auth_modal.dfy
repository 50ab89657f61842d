/**
 * The authentication dialog (`src/components/AuthModal.tsx`): a password
 * form and a certificate upload, each checked for missing input before a
 * simulated authentication that always succeeds after a delay. The delay is
 * a pending timer; firing it is a step of its own.
 */
module AuthModal {
  import opened Wrappers

  /** A selected certificate file; only its identity matters. */
  datatype File = File(name: string)

  /** A notification shown to the user. */
  datatype Toast = Toast(title: string, description: string, destructive: bool)

  const MissingCredentials := Toast("Missing credentials", "Please enter both email and password", true)
  const PasswordAccepted := Toast("Authentication successful", "Redirecting to data consent...", false)
  const NoCertificate := Toast("No certificate selected", "Please select a digital certificate file", true)
  const CertificateAccepted :=
    Toast("Certificate verified", "Authentication successful, redirecting to data consent...", false)

  /** The simulated authentications that have been started and not yet finished. */
  datatype Pending = PasswordCheck | CertificateCheck

  /** What the timer shows when it fires. */
  function CompletionToast(p: Pending): (t: Toast)
    ensures !t.destructive
    ensures t == PasswordAccepted <==> p == PasswordCheck
  {
    match p
    case PasswordCheck => PasswordAccepted
    case CertificateCheck => CertificateAccepted
  }

  /** Whether a password login gets past its input check. */
  predicate CredentialsPresent(email: string, password: string)
  {
    email != "" && password != ""
  }

  class Dialog {
    var email: string
    var password: string
    var isLoading: bool
    var certificateFile: Option<File>
    /** Started authentications whose timer has not fired, oldest first. */
    var pending: seq<Pending>
    /** How many times `onAuthSuccess` has been called. */
    var authSuccessCalls: nat
    /** The toasts shown, in order. */
    var toasts: seq<Toast>
    /** How many authentications have passed their input check. */
    ghost var started: nat

    /** Every started authentication calls `onAuthSuccess` once its timer fires, and only then. */
    ghost predicate Valid()
      reads this
    {
      authSuccessCalls + |pending| == started
    }

    constructor ()
      ensures email == "" && password == "" && !isLoading && certificateFile.None?
      ensures pending == [] && authSuccessCalls == 0 && toasts == []
      ensures Valid()
    {
      email := "";
      password := "";
      isLoading := false;
      certificateFile := None;
      pending := [];
      authSuccessCalls := 0;
      toasts := [];
      started := 0;
    }

    /** The password button is disabled while loading. */
    predicate PasswordButtonEnabled()
      reads this
    {
      !isLoading
    }

    /** The certificate button is disabled while loading or when no file is selected. */
    predicate CertificateButtonEnabled()
      reads this
    {
      !isLoading && certificateFile.Some?
    }

    /** The email input's `onChange`. */
    method SetEmail(value: string)
      requires Valid()
      modifies this
      ensures Valid()
      ensures email == value
      ensures password == old(password) && isLoading == old(isLoading) && certificateFile == old(certificateFile)
      ensures pending == old(pending) && authSuccessCalls == old(authSuccessCalls) && toasts == old(toasts)
      ensures started == old(started)
    {
      email := value;
    }

    /** The password input's `onChange`. */
    method SetPassword(value: string)
      requires Valid()
      modifies this
      ensures Valid()
      ensures password == value
      ensures email == old(email) && isLoading == old(isLoading) && certificateFile == old(certificateFile)
      ensures pending == old(pending) && authSuccessCalls == old(authSuccessCalls) && toasts == old(toasts)
      ensures started == old(started)
    {
      password := value;
    }

    /**
     * `handlePasswordLogin`: an empty email or password shows the
     * "Missing credentials" toast and stops there; otherwise loading starts
     * and the simulated check is pending.
     */
    method HandlePasswordLogin()
      requires Valid()
      modifies this
      ensures Valid()
      ensures email == old(email) && password == old(password) && certificateFile == old(certificateFile)
      ensures authSuccessCalls == old(authSuccessCalls)
      ensures !CredentialsPresent(email, password) ==>
        && toasts == old(toasts) + [MissingCredentials]
        && isLoading == old(isLoading) && pending == old(pending) && started == old(started)
      ensures CredentialsPresent(email, password) ==>
        && isLoading && !PasswordButtonEnabled() && !CertificateButtonEnabled()
        && pending == old(pending) + [PasswordCheck] && toasts == old(toasts)
    {
      if email == "" || password == "" {
        toasts := toasts + [MissingCredentials];
        return;
      }
      isLoading := true;
      pending := pending + [PasswordCheck];
      started := started + 1;
    }

    /**
     * `handleCertificateLogin`: without a file, the "No certificate selected"
     * toast and nothing else; otherwise loading starts and the check is pending.
     */
    method HandleCertificateLogin()
      requires Valid()
      modifies this
      ensures Valid()
      ensures email == old(email) && password == old(password) && certificateFile == old(certificateFile)
      ensures authSuccessCalls == old(authSuccessCalls)
      ensures certificateFile.None? ==>
        && toasts == old(toasts) + [NoCertificate]
        && isLoading == old(isLoading) && pending == old(pending) && started == old(started)
      ensures certificateFile.Some? ==>
        && isLoading && !PasswordButtonEnabled() && !CertificateButtonEnabled()
        && pending == old(pending) + [CertificateCheck] && toasts == old(toasts)
    {
      if certificateFile.None? {
        toasts := toasts + [NoCertificate];
        return;
      }
      isLoading := true;
      pending := pending + [CertificateCheck];
      started := started + 1;
    }

    /**
     * The oldest pending timer fires: its success toast, loading ends, and
     * `onAuthSuccess` is called once.
     */
    method FireTimer()
      requires Valid() && pending != []
      modifies this
      ensures Valid()
      ensures pending == old(pending)[1..]
      ensures toasts == old(toasts) + [CompletionToast(old(pending)[0])]
      ensures !isLoading && authSuccessCalls == old(authSuccessCalls) + 1
      ensures email == old(email) && password == old(password) && certificateFile == old(certificateFile)
      ensures started == old(started)
    {
      toasts := toasts + [CompletionToast(pending[0])];
      isLoading := false;
      authSuccessCalls := authSuccessCalls + 1;
      pending := pending[1..];
    }

    /** `handleFileChange`: the first chosen file replaces the certificate; no file keeps the old one. */
    method HandleFileChange(files: seq<File>)
      requires Valid()
      modifies this
      ensures Valid()
      ensures certificateFile == if files != [] then Some(files[0]) else old(certificateFile)
      ensures email == old(email) && password == old(password) && isLoading == old(isLoading)
      ensures pending == old(pending) && authSuccessCalls == old(authSuccessCalls) && toasts == old(toasts)
      ensures started == old(started)
    {
      if files != [] {
        certificateFile := Some(files[0]);
      }
    }
  }

  /**
   * A password login from a fresh dialog: the check passes, loading shows,
   * and when the timer fires loading ends with exactly one success call.
   */
  method PasswordLoginSucceedsOnce(email: string, password: string) returns (d: Dialog)
    requires CredentialsPresent(email, password)
    ensures fresh(d) && d.Valid()
    ensures !d.isLoading && d.pending == [] && d.authSuccessCalls == 1
    ensures d.toasts == [PasswordAccepted]
  {
    d := new Dialog();
    d.SetEmail(email);
    d.SetPassword(password);
    d.HandlePasswordLogin();
    assert d.isLoading && d.authSuccessCalls == 0;
    d.FireTimer();
  }

  /** A certificate login without a file never calls `onAuthSuccess`, and loading never starts. */
  method CertificateLoginWithoutFile() returns (d: Dialog)
    ensures fresh(d) && d.Valid()
    ensures !d.isLoading && d.pending == [] && d.authSuccessCalls == 0
    ensures d.toasts == [NoCertificate]
  {
    d := new Dialog();
    d.HandleCertificateLogin();
  }
}
