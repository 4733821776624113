/**
 * The login flow: handleInitial, handleClickOnEmail, handleGoogleLoginForm
 * and handleGrowtopia. The browser page is reduced to what each read of it
 * returns; clicks and typing are recorded as actions but have no modelled
 * effect on what the page shows next.
 */
module Flow {
  import opened Wrappers
  import opened GoStrings
  import RandomName

  /** Markers the flow looks for in the page. */
  const RateLimitText := "too many people"
  const IdentifierField := "id=\"identifierId\""
  const PasswordNext := "id=\"passwordNext\""
  const RenameField := "id=\"login-name\""
  const ProfileConflict := "id=\"profile-conflict\""
  const ModalShow := "id=\"modalShow\""

  /** The chooser entry already listing `email`. */
  function ListedAccount(email: string): string {
    "data-identifier='" + email + "'"
  }

  /** The password poll of handleGoogleLoginForm reads the page at most this many times. */
  const PasswordPollLimit := 30

  /** A decoded JSON value, as far as the flow tells values apart. */
  datatype JsonValue = JString(s: string) | JOther

  /** json.Unmarshal into map[string]interface{}: the object, or the decoder's error text. */
  type JsonParser = string -> Result<map<string, JsonValue>, string>

  /** The failures the flow itself reports. */
  datatype FlowError =
    | InitialRateLimited
    | UnhandledPage
    | RateLimited
    | InvalidJson(detail: string)
    | TokenNotFound

  const RateLimitedText := "too many people trying to logon"

  /** The text of each failure, as recorded in the task's Error field. */
  function ErrorText(e: FlowError): (r: string)
    ensures r != ""
    ensures e.InvalidJson? ==> HasPrefix(r, "failed to parse JSON: ") && r[|"failed to parse JSON: "|..] == e.detail
    ensures !e.InvalidJson? ==> r[0] != 'f'
  {
    match e
    case InitialRateLimited => RateLimitedText + ". please try again later"
    case UnhandledPage => "unable to handle the page content"
    case RateLimited => RateLimitedText
    case InvalidJson(detail) => "failed to parse JSON: " + detail
    case TokenNotFound => "token not found in the response"
  }

  /** The stored text tells the failures apart: distinct failures never share a text. */
  lemma ErrorTextDistinct(e1: FlowError, e2: FlowError)
    requires e1 != e2
    ensures ErrorText(e1) != ErrorText(e2)
  {
  }

  /**
   * What the page shows at each point the flow reads it:
   * the body HTML on arrival, the number of chooser entries without a
   * data-identifier, the body HTML at each read of the password poll, the
   * body HTML when handleGrowtopia starts, the body HTML at each read of the
   * profile-conflict poll, and the body text at the end.
   */
  datatype Page = Page(
    initialHtml: string,
    unidentifiedEntries: nat,
    passwordReads: nat -> string,
    landingHtml: string,
    conflictReads: nat -> string,
    finalText: string)

  /** The interactions the flow performs on the page, in order. */
  datatype Action =
    | ClickListedAccount
    | ClickUnidentifiedEntry
    | SubmitCredentials(email: string, password: string)
    | AwaitPasswordAccepted(polls: nat)
    | Rename(name: string)
    | ResolveConflict
    | DismissModal

  /** The end of a run: a token or a failure, or a poll that is still waiting when the fuel runs out. */
  datatype Run = Finished(result: Result<string, FlowError>) | StillPolling

  /** The branches of handleInitial. */
  datatype InitialBranch =
    | TooManyPeople
    | ListedAccountEntry
    | CredentialForm
    | UnidentifiedEntry
    | Unrecognized

  /** handleInitial's choice: the first branch whose marker is present, in a fixed order. */
  function InitialDecision(email: string, html: string, unidentifiedEntries: nat): (b: InitialBranch)
    ensures b == TooManyPeople <==> Contains(html, RateLimitText)
    ensures b == ListedAccountEntry ==> Contains(html, ListedAccount(email))
    ensures b == CredentialForm ==> Contains(html, IdentifierField)
    ensures b == UnidentifiedEntry ==> unidentifiedEntries > 0
    ensures b == Unrecognized ==> unidentifiedEntries == 0 && !Contains(html, IdentifierField)
  {
    if Contains(html, RateLimitText) then TooManyPeople
    else if Contains(html, ListedAccount(email)) then ListedAccountEntry
    else if Contains(html, IdentifierField) then CredentialForm
    else if unidentifiedEntries > 0 then UnidentifiedEntry
    else Unrecognized
  }

  /** Each branch is taken exactly when its marker is present and no earlier branch applies. */
  lemma InitialPriority(email: string, html: string, n: nat)
    ensures var b := InitialDecision(email, html, n);
      && (b == TooManyPeople <==> Contains(html, RateLimitText))
      && (b == ListedAccountEntry <==>
            !Contains(html, RateLimitText) && Contains(html, ListedAccount(email)))
      && (b == CredentialForm <==>
            !Contains(html, RateLimitText) && !Contains(html, ListedAccount(email))
            && Contains(html, IdentifierField))
      && (b == UnidentifiedEntry <==>
            !Contains(html, RateLimitText) && !Contains(html, ListedAccount(email))
            && !Contains(html, IdentifierField) && n > 0)
      && (b == Unrecognized <==>
            !Contains(html, RateLimitText) && !Contains(html, ListedAccount(email))
            && !Contains(html, IdentifierField) && n == 0)
  {
  }

  /** A page listing the account is handled by clicking that entry, whatever else it shows, unless rate-limited. */
  lemma ListedAccountWins(email: string, before: string, after: string, n: nat)
    requires !Contains(before + ListedAccount(email) + after, RateLimitText)
    ensures InitialDecision(email, before + ListedAccount(email) + after, n) == ListedAccountEntry
  {
    ContainsInContext(before, ListedAccount(email), after);
  }

  /**
   * The first of `limit` reads that no longer shows `marker`, or None when
   * every one of them still shows it.
   */
  function FirstWithout(snapshots: nat -> string, marker: string, limit: nat): (k: Option<nat>)
    ensures k.Some? ==> k.value < limit && !Contains(snapshots(k.value), marker)
    ensures k.Some? ==> forall j :: 0 <= j < k.value ==> Contains(snapshots(j), marker)
    ensures k.None? ==> forall j :: 0 <= j < limit ==> Contains(snapshots(j), marker)
  {
    if limit == 0 then None
    else
      match FirstWithout(snapshots, marker, limit - 1)
      case Some(k) => Some(k)
      case None => if Contains(snapshots(limit - 1), marker) then None else Some(limit - 1)
  }

  /**
   * The polling loops: read the body until `marker` is gone, at most `limit`
   * times. The password poll is bounded by PasswordPollLimit; the conflict
   * poll has no bound in the service and is given fuel here.
   */
  method PollUntilAbsent(snapshots: nat -> string, marker: string, limit: nat) returns (k: Option<nat>)
    ensures k == FirstWithout(snapshots, marker, limit)
  {
    var i := 0;
    while i < limit
      invariant 0 <= i <= limit
      invariant forall j :: 0 <= j < i ==> Contains(snapshots(j), marker)
    {
      var body := snapshots(i);
      if !Contains(body, marker) {
        return Some(i);
      }
      i := i + 1;
    }
    return None;
  }

  /** The number of reads the password poll makes. */
  function PasswordPolls(snapshots: nat -> string): (n: nat)
    ensures 1 <= n <= PasswordPollLimit
    ensures forall j :: 0 <= j < n - 1 ==> Contains(snapshots(j), PasswordNext)
  {
    match FirstWithout(snapshots, PasswordNext, PasswordPollLimit)
    case Some(k) => k + 1
    case None => PasswordPollLimit
  }

  /** The dismiss step, taken when the body read last shows the modal. */
  function ModalStep(body: string): seq<Action> {
    if Contains(body, ModalShow) then [DismissModal] else []
  }

  /**
   * The end of handleGrowtopia: the body text gives a rate-limit failure,
   * then a parse failure, then a missing-token failure, else the token.
   */
  function Classify(text: string, parse: JsonParser): (r: Result<string, FlowError>)
    ensures r == Err(RateLimited) <==> Contains(text, RateLimitText)
    ensures r.Ok? ==> parse(text).Ok? && "token" in parse(text).value && parse(text).value["token"] == JString(r.value)
    ensures r.Err? ==> r.error in {RateLimited, TokenNotFound} || r.error.InvalidJson?
  {
    if Contains(text, RateLimitText) then Err(RateLimited)
    else
      match parse(text)
      case Err(detail) => Err(InvalidJson(detail))
      case Ok(obj) =>
        if "token" in obj && obj["token"].JString? then Ok(obj["token"].s) else Err(TokenNotFound)
  }

  /** Classify, case by case, in its order of precedence. */
  lemma ClassifyCases(text: string, parse: JsonParser)
    ensures Classify(text, parse) == Err(RateLimited) <==> Contains(text, RateLimitText)
    ensures forall d :: Classify(text, parse) == Err(InvalidJson(d)) <==>
              !Contains(text, RateLimitText) && parse(text) == Err(d)
    ensures Classify(text, parse) == Err(TokenNotFound) <==>
              && !Contains(text, RateLimitText) && parse(text).Ok?
              && !("token" in parse(text).value && parse(text).value["token"].JString?)
    ensures forall t :: Classify(text, parse) == Ok(t) <==>
              && !Contains(text, RateLimitText) && parse(text).Ok?
              && "token" in parse(text).value && parse(text).value["token"] == JString(t)
  {
  }

  /** What handleGrowtopia does and returns. */
  function GrowtopiaRun(page: Page, nameBytes: seq<RandomName.Byte>, parse: JsonParser, fuel: nat): (r: (seq<Action>, Run))
    requires |nameBytes| == RandomName.NameBytes
    ensures r.1 == StillPolling || r.1 == Finished(Classify(page.finalText, parse))
    ensures r.1 == StillPolling ==> Contains(page.landingHtml, ProfileConflict)
    ensures |r.0| <= 3
    ensures ResolveConflict in r.0 <==> Contains(page.landingHtml, ProfileConflict)
  {
    var renameStep :=
      if Contains(page.landingHtml, RenameField) then [Rename(RandomName.GenerateRandomName(nameBytes))] else [];
    if Contains(page.landingHtml, ProfileConflict) then
      match FirstWithout(page.conflictReads, ProfileConflict, fuel)
      case None => (renameStep + [ResolveConflict], StillPolling)
      case Some(k) =>
        (renameStep + [ResolveConflict] + ModalStep(page.conflictReads(k)), Finished(Classify(page.finalText, parse)))
    else
      (renameStep + ModalStep(page.landingHtml), Finished(Classify(page.finalText, parse)))
  }

  /**
   * handleGrowtopia: the optional rename, conflict and modal fix-ups, then
   * the classification of the final body text. The rename and conflict tests
   * read the body taken on arrival; the modal test reads that same body, or
   * the last one the conflict poll read.
   */
  method HandleGrowtopia(page: Page, nameBytes: seq<RandomName.Byte>, parse: JsonParser, fuel: nat)
    returns (actions: seq<Action>, run: Run)
    requires |nameBytes| == RandomName.NameBytes
    ensures (actions, run) == GrowtopiaRun(page, nameBytes, parse, fuel)
  {
    var body := page.landingHtml;
    actions := [];
    if Contains(body, RenameField) {
      actions := actions + [Rename(RandomName.GenerateRandomName(nameBytes))];
    }
    ghost var renameStep := actions;
    assert renameStep == if Contains(page.landingHtml, RenameField) then [Rename(RandomName.GenerateRandomName(nameBytes))] else [];
    if Contains(body, ProfileConflict) {
      actions := actions + [ResolveConflict];
      var cleared := PollUntilAbsent(page.conflictReads, ProfileConflict, fuel);
      if cleared.None? {
        return actions, StillPolling;
      }
      body := page.conflictReads(cleared.value);
    }
    if Contains(body, ModalShow) {
      actions := actions + [DismissModal];
    }
    run := Finished(Classify(page.finalText, parse));
    // The actions gathered above are those GrowtopiaRun lists.
    assert GrowtopiaRun(page, nameBytes, parse, fuel).0 == actions;
  }

  /** The credential steps of handleGoogleLoginForm. */
  function CredentialSteps(email: string, password: string, page: Page): seq<Action> {
    [SubmitCredentials(email, password), AwaitPasswordAccepted(PasswordPolls(page.passwordReads))]
  }

  function Prepend(steps: seq<Action>, run: (seq<Action>, Run)): (seq<Action>, Run) {
    (steps + run.0, run.1)
  }

  /** What the whole login flow, from handleInitial on, does and returns. */
  function LoginRun(email: string, password: string, page: Page, nameBytes: seq<RandomName.Byte>,
                    parse: JsonParser, fuel: nat): (r: (seq<Action>, Run))
    requires |nameBytes| == RandomName.NameBytes
    ensures r.0 == [] <==> r.1 == Finished(Err(InitialRateLimited)) || r.1 == Finished(Err(UnhandledPage))
    ensures |r.0| <= 6
  {
    var rest := GrowtopiaRun(page, nameBytes, parse, fuel);
    match InitialDecision(email, page.initialHtml, page.unidentifiedEntries)
    case TooManyPeople => ([], Finished(Err(InitialRateLimited)))
    case ListedAccountEntry => Prepend([ClickListedAccount], rest)
    case CredentialForm => Prepend(CredentialSteps(email, password, page), rest)
    case UnidentifiedEntry => Prepend([ClickUnidentifiedEntry] + CredentialSteps(email, password, page), rest)
    case Unrecognized => ([], Finished(Err(UnhandledPage)))
  }

  /**
   * handleGoogleLoginForm: enter the credentials, poll until the password
   * step is gone (at most PasswordPollLimit reads), then handleGrowtopia.
   */
  method HandleLoginForm(email: string, password: string, page: Page, nameBytes: seq<RandomName.Byte>,
                         parse: JsonParser, fuel: nat)
    returns (actions: seq<Action>, run: Run)
    requires |nameBytes| == RandomName.NameBytes
    ensures (actions, run) == Prepend(CredentialSteps(email, password, page), GrowtopiaRun(page, nameBytes, parse, fuel))
  {
    var accepted := PollUntilAbsent(page.passwordReads, PasswordNext, PasswordPollLimit);
    var polls := if accepted.Some? then accepted.value + 1 else PasswordPollLimit;
    var rest;
    rest, run := HandleGrowtopia(page, nameBytes, parse, fuel);
    actions := [SubmitCredentials(email, password), AwaitPasswordAccepted(polls)] + rest;
  }

  /** handleInitial, with handleClickOnEmail inlined. */
  method HandleInitial(email: string, password: string, page: Page, nameBytes: seq<RandomName.Byte>,
                       parse: JsonParser, fuel: nat)
    returns (actions: seq<Action>, run: Run)
    requires |nameBytes| == RandomName.NameBytes
    ensures (actions, run) == LoginRun(email, password, page, nameBytes, parse, fuel)
  {
    var html := page.initialHtml;
    if Contains(html, RateLimitText) {
      return [], Finished(Err(InitialRateLimited));
    }
    if Contains(html, ListedAccount(email)) {
      var rest;
      rest, run := HandleGrowtopia(page, nameBytes, parse, fuel);
      return [ClickListedAccount] + rest, run;
    }
    if Contains(html, IdentifierField) {
      actions, run := HandleLoginForm(email, password, page, nameBytes, parse, fuel);
      return;
    }
    if page.unidentifiedEntries > 0 {
      var rest;
      rest, run := HandleLoginForm(email, password, page, nameBytes, parse, fuel);
      assert [ClickUnidentifiedEntry] + rest
          == [ClickUnidentifiedEntry] + CredentialSteps(email, password, page) + GrowtopiaRun(page, nameBytes, parse, fuel).0;
      return [ClickUnidentifiedEntry] + rest, run;
    }
    return [], Finished(Err(UnhandledPage));
  }

  /**
   * A run ends in one of the two initial failures, in a poll still waiting
   * on a profile conflict, or with the classification of the final body text;
   * the fix-ups never change the outcome.
   */
  lemma LoginOutcome(email: string, password: string, page: Page, nameBytes: seq<RandomName.Byte>,
                     parse: JsonParser, fuel: nat)
    requires |nameBytes| == RandomName.NameBytes
    ensures var run := LoginRun(email, password, page, nameBytes, parse, fuel).1;
      var branch := InitialDecision(email, page.initialHtml, page.unidentifiedEntries);
      && (branch == TooManyPeople ==> run == Finished(Err(InitialRateLimited)))
      && (branch == Unrecognized ==> run == Finished(Err(UnhandledPage)))
      && (branch != TooManyPeople && branch != Unrecognized ==>
            (run == StillPolling <==>
               Contains(page.landingHtml, ProfileConflict)
               && FirstWithout(page.conflictReads, ProfileConflict, fuel).None?)
            && (run != StillPolling ==> run == Finished(Classify(page.finalText, parse))))
  {
  }

  /** The password poll reads the page at least once and never more than PasswordPollLimit times. */
  lemma PasswordPollBounded(snapshots: nat -> string)
    ensures 1 <= PasswordPolls(snapshots) <= PasswordPollLimit
    ensures PasswordPolls(snapshots) < PasswordPollLimit ==> !Contains(snapshots(PasswordPolls(snapshots) - 1), PasswordNext)
  {
  }

  /**
   * The rename fix-up comes first, exactly when the body taken on arrival
   * shows the name field, and carries the generated name; no other step
   * renames, and the modal is dismissed last.
   */
  lemma RenameSnapshot(page: Page, nameBytes: seq<RandomName.Byte>, parse: JsonParser, fuel: nat)
    requires |nameBytes| == RandomName.NameBytes
    ensures var (actions, run) := GrowtopiaRun(page, nameBytes, parse, fuel);
      && (Contains(page.landingHtml, RenameField) <==>
            |actions| > 0 && actions[0] == Rename(RandomName.GenerateRandomName(nameBytes)))
      && (forall i :: 0 < i < |actions| ==> !actions[i].Rename?)
      && (DismissModal in actions ==> actions[|actions| - 1] == DismissModal)
      && (ResolveConflict in actions && DismissModal in actions ==> actions[|actions| - 2] == ResolveConflict)
  {
  }

  /**
   * The modal test reads the body taken on arrival, unless the conflict poll
   * ran: then it reads the body that poll read last.
   */
  lemma ModalSnapshot(page: Page, nameBytes: seq<RandomName.Byte>, parse: JsonParser, fuel: nat)
    requires |nameBytes| == RandomName.NameBytes
    ensures var (actions, run) := GrowtopiaRun(page, nameBytes, parse, fuel);
      && (!Contains(page.landingHtml, ProfileConflict) ==>
            (DismissModal in actions <==> Contains(page.landingHtml, ModalShow)))
      && (Contains(page.landingHtml, ProfileConflict) && run.Finished? ==>
            exists k :: FirstWithout(page.conflictReads, ProfileConflict, fuel) == Some(k)
              && (DismissModal in actions <==> Contains(page.conflictReads(k), ModalShow)))
  {
  }

  /**
   * A fresh login whose pages show no fix-up markers and whose final body is
   * a JSON object with a string token ends with that token.
   */
  lemma FreshLoginScenario(email: string, password: string, page: Page, nameBytes: seq<RandomName.Byte>,
                           parse: JsonParser, fuel: nat, token: string)
    requires |nameBytes| == RandomName.NameBytes
    requires InitialDecision(email, page.initialHtml, page.unidentifiedEntries) == CredentialForm
    requires !Contains(page.landingHtml, RenameField) && !Contains(page.landingHtml, ProfileConflict)
    requires !Contains(page.landingHtml, ModalShow) && !Contains(page.finalText, RateLimitText)
    requires parse(page.finalText).Ok?
    requires "token" in parse(page.finalText).value && parse(page.finalText).value["token"] == JString(token)
    ensures LoginRun(email, password, page, nameBytes, parse, fuel)
            == ([SubmitCredentials(email, password), AwaitPasswordAccepted(PasswordPolls(page.passwordReads))],
                Finished(Ok(token)))
  {
    var steps := CredentialSteps(email, password, page);
    assert Classify(page.finalText, parse) == Ok(token);
    assert ModalStep(page.landingHtml) == [];
    assert GrowtopiaRun(page, nameBytes, parse, fuel).1 == Finished(Ok(token));
    assert GrowtopiaRun(page, nameBytes, parse, fuel).0 == [];
    assert steps + [] == steps;
  }

  /** A first page that mentions the rate limit ends the run at once, with no interaction. */
  lemma RateLimitedScenario(email: string, password: string, page: Page, nameBytes: seq<RandomName.Byte>,
                            parse: JsonParser, fuel: nat)
    requires |nameBytes| == RandomName.NameBytes
    requires Contains(page.initialHtml, RateLimitText)
    ensures LoginRun(email, password, page, nameBytes, parse, fuel) == ([], Finished(Err(InitialRateLimited)))
  {
  }
}
