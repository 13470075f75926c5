/**
 * The connection-error dialog: how a raw error message is classified into
 * a user-facing headline and a details text.
 */
module ErrorDialog {
  import opened Wrappers
  import opened Text
  import ErrorStore
  import TauriApi

  /** The recognised kinds of failure, plus the catch-all. */
  datatype Kind = MissingConfig | Unreachable | AuthFailed | AccessDenied | TimedOut | BadCertificate | Unrecognised

  /** The recognised kinds in the order they are tested: the first one mentioned wins. */
  const Chain: seq<Kind> := [MissingConfig, Unreachable, AuthFailed, AccessDenied, TimedOut, BadCertificate]

  /** The case-sensitive substrings that identify each kind (401 and 403 are the HTTP status codes). */
  predicate Mentions(msg: string, k: Kind)
  {
    match k
    case MissingConfig => Contains(msg, "No kubeconfig found")
    case Unreachable => Contains(msg, "connection refused") || Contains(msg, "ECONNREFUSED")
    case AuthFailed => Contains(msg, "Unauthorized") || Contains(msg, "401")
    case AccessDenied => Contains(msg, "Forbidden") || Contains(msg, "403")
    case TimedOut => Contains(msg, "timeout") || Contains(msg, "ETIMEDOUT")
    case BadCertificate => Contains(msg, "certificate")
    case Unrecognised => false
  }

  /** The if/else-if chain of the dialog. */
  function Classify(msg: string): (k: Kind)
    ensures k != Unrecognised ==> Mentions(msg, k)
  {
    if Contains(msg, "No kubeconfig found") then MissingConfig
    else if Contains(msg, "connection refused") || Contains(msg, "ECONNREFUSED") then Unreachable
    else if Contains(msg, "Unauthorized") || Contains(msg, "401") then AuthFailed
    else if Contains(msg, "Forbidden") || Contains(msg, "403") then AccessDenied
    else if Contains(msg, "timeout") || Contains(msg, "ETIMEDOUT") then TimedOut
    else if Contains(msg, "certificate") then BadCertificate
    else Unrecognised
  }

  /** Reference definition: the first kind of `kinds` that `msg` mentions. */
  function FirstMentioned(kinds: seq<Kind>, msg: string): (k: Kind)
    ensures k == Unrecognised || k in kinds
    decreases |kinds|
  {
    if |kinds| == 0 then Unrecognised
    else if Mentions(msg, kinds[0]) then kinds[0]
    else FirstMentioned(kinds[1..], msg)
  }

  /** The position of a recognised kind in the chain. */
  function Rank(k: Kind): (r: nat)
    ensures k != Unrecognised ==> r < |Chain| && Chain[r] == k
  {
    match k
    case MissingConfig => 0
    case Unreachable => 1
    case AuthFailed => 2
    case AccessDenied => 3
    case TimedOut => 4
    case BadCertificate => 5
    case Unrecognised => |Chain|
  }

  /** The catch-all is chosen exactly when no recognised kind is mentioned. */
  lemma UnrecognisedIff(msg: string)
    ensures Classify(msg) == Unrecognised <==> forall k :: !Mentions(msg, k)
  {
    if Classify(msg) != Unrecognised {
      assert Mentions(msg, Classify(msg));
    }
  }

  /** The chain is the table scanned in order. */
  lemma ClassifyIsFirstMentioned(msg: string)
    ensures Classify(msg) == FirstMentioned(Chain, msg)
  {
    assert Chain[1..][1..][1..][1..][1..][1..] == [];
  }

  /** No kind earlier in the chain than the chosen one is mentioned. */
  lemma ClassifyPriority(msg: string, i: int)
    requires 0 <= i < |Chain| && Mentions(msg, Chain[i])
    ensures Classify(msg) != Unrecognised && Rank(Classify(msg)) <= i
  {
  }

  /** A message naming both an authorisation failure and a certificate is an authentication failure. */
  lemma UnauthorizedBeatsCertificate(s: string)
    requires s == "Unauthorized certificate"
    ensures Classify(s) == AuthFailed
    ensures Mentions(s, BadCertificate)
  {
    assert OccursAt(s, "Unauthorized", 0);
    ContainsWitness(s, "Unauthorized", 0);
    assert OccursAt(s, "certificate", 13);
    ContainsWitness(s, "certificate", 13);
    assert forall i | 0 <= i < |s| :: s[i] != 'N' && s[i] != 'E' && s[i] != 's';
    EarlierKindsAbsent(s);
  }

  /** A message without N, E and s names neither a missing configuration nor a refused connection. */
  lemma EarlierKindsAbsent(s: string)
    requires forall i | 0 <= i < |s| :: s[i] != 'N' && s[i] != 'E' && s[i] != 's'
    ensures !Mentions(s, MissingConfig) && !Mentions(s, Unreachable)
  {
    NotContainsMissingChar(s, "No kubeconfig found", 0);
    NotContainsMissingChar(s, "connection refused", 15);
    NotContainsMissingChar(s, "ECONNREFUSED", 0);
  }

  // ---------------------------------------------------------------------
  // The dialog
  // ---------------------------------------------------------------------

  const DefaultTitle := "Connection Error"
  const UnknownText := "Unknown error occurred"
  const CertificateHint := "There was a problem with the cluster certificate. "

  function Headline(k: Kind): string
  {
    match k
    case MissingConfig => "Kubernetes configuration not found"
    case Unreachable => "Cannot reach Kubernetes cluster"
    case AuthFailed => "Authentication failed"
    case AccessDenied => "Access denied"
    case TimedOut => "Connection timed out"
    case BadCertificate => "Certificate error"
    case Unrecognised => "Failed to connect to Kubernetes cluster"
  }

  /** The fixed advice of each kind that replaces the raw message. */
  function FixedHint(k: Kind): (r: string)
    ensures r != ""
  {
    match k
    case MissingConfig => "Please ensure kubectl is configured and ~/.kube/config exists."
    case Unreachable => "The cluster may be offline or unreachable. Check your network connection and cluster status."
    case AuthFailed => "Your Kubernetes credentials may have expired. Try running: kubectl get pods"
    case AccessDenied => "You do not have permission to access this resource. Check your RBAC settings."
    case TimedOut => "The cluster took too long to respond. Check your network connection."
    case BadCertificate => CertificateHint
    case Unrecognised => UnknownText
  }

  /** The text classified: the error's message, or a stock text when it is empty. */
  function ErrorText(e: ErrorStore.AppError): (r: string)
    ensures r != ""
    ensures e.message != "" ==> r == e.message
    ensures e.message == "" ==> r == UnknownText
  {
    if e.message != "" then e.message else UnknownText
  }

  function DetailsFor(k: Kind, raw: string): string
  {
    match k
    case Unrecognised => raw
    case BadCertificate => CertificateHint + raw
    case _ => FixedHint(k)
  }

  /** What the dialog shows: title, headline, details box and whether a retry button is offered. */
  datatype Dialog = Dialog(title: string, message: string, details: string, canRetry: bool)

  /** The details box is rendered only for a non-empty details text. */
  predicate ShowsDetails(d: Dialog)
  {
    d.details != ""
  }

  /** `ConnectionError`: nothing without an error, else the classified dialog. */
  function ConnectionError(error: Option<ErrorStore.AppError>, hasRetry: bool): (r: Option<Dialog>)
    ensures r.None? <==> error.None?
    ensures r.Some? ==> r.value.title == DefaultTitle && r.value.canRetry == hasRetry
    ensures r.Some? ==> r.value.message == Headline(Classify(ErrorText(error.value)))
  {
    match error
    case None => None
    case Some(e) =>
      var raw := ErrorText(e);
      var k := Classify(raw);
      Some(Dialog(DefaultTitle, Headline(k), DetailsFor(k, raw), hasRetry))
  }

  /**
   * The details keep the raw text exactly for an unrecognised message and
   * after the hint for a certificate problem; every other kind shows its
   * fixed advice, whatever the message said. The details box is always shown.
   */
  lemma DetailsLaws(e: ErrorStore.AppError, hasRetry: bool)
    ensures var d := ConnectionError(Some(e), hasRetry).value;
      var raw := ErrorText(e);
      ShowsDetails(d) &&
      (Classify(raw) == Unrecognised ==> d.details == raw) &&
      (Classify(raw) == BadCertificate ==> StartsWith(d.details, CertificateHint) && EndsWith(d.details, raw)) &&
      (Classify(raw) !in {Unrecognised, BadCertificate} ==> d.details == FixedHint(Classify(raw)))
  {
    var raw := ErrorText(e);
    var d := ConnectionError(Some(e), hasRetry).value;
    if Classify(raw) == BadCertificate {
      assert d.details == CertificateHint + raw;
      assert d.details[..|CertificateHint|] == CertificateHint;
      assert d.details[|d.details| - |raw|..] == raw;
    }
  }

  /** Two messages of the same recognised kind other than a certificate problem give the same dialog. */
  lemma FixedKindsForgetMessage(e1: ErrorStore.AppError, e2: ErrorStore.AppError, hasRetry: bool)
    requires Classify(ErrorText(e1)) == Classify(ErrorText(e2))
    requires Classify(ErrorText(e1)) !in {Unrecognised, BadCertificate}
    ensures ConnectionError(Some(e1), hasRetry) == ConnectionError(Some(e2), hasRetry)
  {
  }

  /** An error without a message is shown as an unrecognised failure with the stock text as details. */
  lemma EmptyMessageDialog(hasRetry: bool)
    ensures ConnectionError(Some(ErrorStore.AppError("")), hasRetry) ==
      Some(Dialog(DefaultTitle, "Failed to connect to Kubernetes cluster", UnknownText, hasRetry))
  {
    UnknownTextUnrecognised(UnknownText);
  }

  lemma UnknownTextUnrecognised(s: string)
    requires s == UnknownText
    ensures Classify(s) == Unrecognised
  {
    UnknownTextLetters(s);
    LacksLettersUnrecognised(s);
  }

  /** A message without the letters N, E, t, a, F and the digit 4 mentions no recognised kind. */
  lemma LacksLettersUnrecognised(s: string)
    requires forall i | 0 <= i < |s| :: s[i] != 'N' && s[i] != 'E' && s[i] != 't' && s[i] != 'a' && s[i] != '4' && s[i] != 'F'
    ensures Classify(s) == Unrecognised
  {
    NotContainsMissingChar(s, "No kubeconfig found", 0);
    NotContainsMissingChar(s, "connection refused", 6);
    NotContainsMissingChar(s, "ECONNREFUSED", 0);
    NotContainsMissingChar(s, "Unauthorized", 2);
    NotContainsMissingChar(s, "401", 0);
    NotContainsMissingChar(s, "Forbidden", 0);
    NotContainsMissingChar(s, "403", 0);
    NotContainsMissingChar(s, "timeout", 0);
    NotContainsMissingChar(s, "ETIMEDOUT", 0);
    NotContainsMissingChar(s, "certificate", 3);
  }

  lemma UnknownTextLetters(s: string)
    requires s == UnknownText
    ensures forall i | 0 <= i < |s| :: s[i] != 'N' && s[i] != 'E' && s[i] != 't' && s[i] != 'a' && s[i] != '4' && s[i] != 'F'
  {
  }

  /**
   * The client-side timeout error says "timed out", not "timeout", so it
   * is shown as an unrecognised failure rather than as a timeout.
   */
  lemma ClientTimeoutIsUnrecognised()
    ensures Classify(TauriApi.TimeoutMessage()) == Unrecognised
    ensures ConnectionError(Some(ErrorStore.AppError(TauriApi.TimeoutMessage())), true).value.details ==
      TauriApi.TimeoutMessage()
  {
    TauriApi.TimeoutMessageText();
    var s := "Connection timed out after 30 seconds";
    TimeoutTextLetters(s);
    NotContainsMissingChar(s, "No kubeconfig found", 0);
    NotContainsMissingChar(s, "ECONNREFUSED", 0);
    NotContainsMissingChar(s, "Unauthorized", 0);
    NotContainsMissingChar(s, "401", 0);
    NotContainsMissingChar(s, "Forbidden", 0);
    NotContainsMissingChar(s, "403", 0);
    NotContainsMissingChar(s, "ETIMEDOUT", 0);
    TimeoutTextAvoids(s);
  }

  lemma TimeoutTextLetters(s: string)
    requires s == "Connection timed out after 30 seconds"
    ensures forall i | 0 <= i < |s| :: s[i] != 'N' && s[i] != 'E' && s[i] != 'U' && s[i] != '4' && s[i] != 'F'
  {
  }

  /** The three patterns whose letters all occur in the timeout text, ruled out piece by piece. */
  lemma TimeoutTextAvoids(s: string)
    requires s == "Connection timed out after 30 seconds"
    ensures !Contains(s, "timeout") && !Contains(s, "certificate") && !Contains(s, "connection refused")
  {
    assert !Contains(s, "connection refused") by {
      TimeoutTextAvoidsRefused();
    }
    assert !Contains(s, "timeout") by {
      ConnectionAvoidsTimeout();
      ShortWordsAvoid("timeout");
      NotContainsMissingChar("seconds", "timeout", 0);
      WordsAvoid("timeout");
    }
    assert !Contains(s, "certificate") by {
      NotContainsLonger("Connection", "certificate");
      ShortWordsAvoid("certificate");
      NotContainsLonger("seconds", "certificate");
      WordsAvoid("certificate");
    }
  }

  lemma ShortWordsAvoid(p: string)
    requires |p| > 5
    ensures !Contains("timed", p) && !Contains("out", p) && !Contains("after", p) && !Contains("30", p)
  {
    NotContainsLonger("timed", p);
    NotContainsLonger("out", p);
    NotContainsLonger("after", p);
    NotContainsLonger("30", p);
  }

  /** "connection refused" holds neither 'm' nor 'a': the pieces between them are too short. */
  lemma TimeoutTextAvoidsRefused()
    ensures !Contains("Connection timed out after 30 seconds", "connection refused")
  {
    var p := "connection refused";
    assert !Contains("ed out after 30 seconds", p) by {
      NotContainsLonger("ed out ", p);
      NotContainsLonger("fter 30 seconds", p);
      NotContainsAcross("ed out ", 'a', "fter 30 seconds", p);
      assert "ed out " + ['a'] + "fter 30 seconds" == "ed out after 30 seconds";
    }
    NotContainsLonger("Connection ti", p);
    NotContainsAcross("Connection ti", 'm', "ed out after 30 seconds", p);
    SplitAtM();
  }

  lemma SplitAtM()
    ensures "Connection ti" + ['m'] + "ed out after 30 seconds" == "Connection timed out after 30 seconds"
  {
  }

  /** "Connection" splits at 'n', which "timeout" lacks, into pieces shorter than it. */
  lemma ConnectionAvoidsTimeout()
    ensures !Contains("Connection", "timeout")
  {
    NotContainsLonger("Co", "timeout");
    NotContainsLonger("", "timeout");
    NotContainsLonger("ectio", "timeout");
    NotContainsAcross("Co", 'n', "", "timeout");
    assert "Co" + ['n'] + "" == "Con";
    NotContainsAcross("Con", 'n', "ectio", "timeout");
    assert "Con" + ['n'] + "ectio" == "Connectio";
    NotContainsAcross("Connectio", 'n', "", "timeout");
    assert "Connectio" + ['n'] + "" == "Connection";
  }

  /** A space-free pattern absent from every word of the timeout text is absent from the text. */
  lemma WordsAvoid(p: string)
    requires ' ' !in p
    requires !Contains("Connection", p) && !Contains("timed", p) && !Contains("out", p)
    requires !Contains("after", p) && !Contains("30", p) && !Contains("seconds", p)
    ensures !Contains("Connection timed out after 30 seconds", p)
  {
    WordsAvoidTail(p);
    assert !Contains("timed out after 30 seconds", p) by {
      NotContainsAcross("timed", ' ', "out after 30 seconds", p);
      assert "timed" + [' '] + "out after 30 seconds" == "timed out after 30 seconds";
    }
    NotContainsAcross("Connection", ' ', "timed out after 30 seconds", p);
    SplitAtFirstSpace();
  }

  lemma WordsAvoidTail(p: string)
    requires ' ' !in p && !Contains("out", p) && !Contains("after", p) && !Contains("30", p) && !Contains("seconds", p)
    ensures !Contains("out after 30 seconds", p)
  {
    assert !Contains("30 seconds", p) by {
      NotContainsAcross("30", ' ', "seconds", p);
      assert "30" + [' '] + "seconds" == "30 seconds";
    }
    assert !Contains("after 30 seconds", p) by {
      NotContainsAcross("after", ' ', "30 seconds", p);
      assert "after" + [' '] + "30 seconds" == "after 30 seconds";
    }
    NotContainsAcross("out", ' ', "after 30 seconds", p);
    assert "out" + [' '] + "after 30 seconds" == "out after 30 seconds";
  }

  lemma SplitAtFirstSpace()
    ensures "Connection" + [' '] + "timed out after 30 seconds" == "Connection timed out after 30 seconds"
  {
  }
}
