/** The two message events of index.js that touch the workflows: a text message is
    offered to the auth, admin, group and CTC handlers in that order until one
    handles it, and an uploaded file is checked and parsed into the CTC flow's
    number list. The auth and CTC handlers are not part of this model: their
    answers are the parameters `authHandles` and `ctcHandles`. */
module Events {

  import opened Wrappers
  import opened Text
  import opened Domain
  import opened Model
  import AdminHandler
  import GroupHandler

  datatype TextHandler = AuthText | AdminText | GroupText | CtcText

  /** The order in which the handlers are offered a text. */
  const TextOrder: seq<TextHandler> := [AuthText, AdminText, GroupText, CtcText]

  /** No text (a sticker, a photo), an empty text, a command, or a stranger. */
  predicate IgnoredText(isOwner: bool, text: Option<string>) {
    text.None? || text.value == "" || StartsWith(text.value, "/") || !isOwner
  }

  /** Whether the admin handler takes a text in this state of the admin flow. */
  predicate AdminTakesText(kind: FlowType, step: AdminStep) {
    (step == WaitingSearchQuery && kind == AddPromote) || step == WaitingAdminNumbers
  }

  /** The text event. `parsed` is what the phone-number parser makes of the text.
      The handlers tried form a prefix of the fixed order; every one before the
      last answered "not handled", and the chain stops early only at a handler
      that answered "handled". A handler that is not reached changes nothing. */
  method OnText(u: UserState, isOwner: bool, text: Option<string>, authHandles: bool, parsed: ParseResult,
                num: string -> int, ctcHandles: bool)
    returns (tried: seq<TextHandler>, answers: seq<bool>)
    modifies u.adminFlow, u.renameState
    ensures |answers| == |tried| <= |TextOrder| && tried == TextOrder[..|tried|]
    ensures IgnoredText(isOwner, text) <==> tried == []
    ensures forall i :: 0 <= i < |answers| - 1 ==> !answers[i]
    ensures 0 < |tried| < |TextOrder| ==> answers[|answers| - 1]
    ensures |tried| >= 1 ==> answers[0] == authHandles
    ensures |tried| >= 2 ==> answers[1] == (u.adminFlow != null && AdminTakesText(old(u.adminFlow.kind), old(u.adminFlow.step)))
    ensures |tried| >= 3 ==> answers[2] == (u.renameState != null)
    ensures |tried| == 4 ==> answers[3] == ctcHandles
    ensures |tried| < 2 && u.adminFlow != null ==> unchanged(u.adminFlow)
    ensures |tried| < 3 && u.renameState != null ==> unchanged(u.renameState)
  {
    tried := [];
    answers := [];
    if text.None? || text.value == "" || StartsWith(text.value, "/") {
      return;
    }
    if !isOwner {
      return;
    }
    var handled := authHandles;
    tried, answers := [AuthText], [handled];
    if !handled {
      handled := AdminHandler.AdminMessage(u, text.value, parsed);
      tried, answers := tried + [AdminText], answers + [handled];
    }
    if !handled {
      var rest, restAnswers := RenameThenCtc(u, text.value, num, ctcHandles);
      tried, answers := tried + rest, answers + restAnswers;
    }
  }

  /** The end of the text chain: the rename handler, then the contact handler when
      the rename handler did not take the text. */
  method RenameThenCtc(u: UserState, text: string, num: string -> int, ctcHandles: bool)
    returns (tried: seq<TextHandler>, answers: seq<bool>)
    modifies u.renameState
    ensures |answers| == |tried| && 1 <= |tried| <= 2 && tried == [GroupText, CtcText][..|tried|]
    ensures answers[0] == (u.renameState != null)
    ensures |tried| == 1 <==> answers[0]
    ensures |tried| == 2 ==> answers[1] == ctcHandles
  {
    var handled := GroupHandler.GroupMessage(u, text, num);
    tried, answers := [GroupText], [handled];
    if !handled {
      tried, answers := tried + [CtcText], answers + [ctcHandles];
    }
  }

  // ---------------------------------------------------------------- documents

  /** 5 MB. */
  const MaxFileSize: nat := 5 * 1024 * 1024

  /** How many parser errors the reply lists. */
  const ShownErrors: nat := 10

  /** The file name ends in `.txt`, ignoring case. */
  predicate IsTxtName(fileName: string) {
    EndsWith(ToLower(fileName), ".txt")
  }

  /** Ignoring case means exactly this: the name ends in a dot followed by the
      letters t, x, t, each in either case. */
  lemma TxtNameAnyCase(fileName: string)
    ensures IsTxtName(fileName) <==>
      var n := |fileName|;
      && n >= 4 && fileName[n - 4] == '.'
      && fileName[n - 3] in {'t', 'T'} && fileName[n - 2] in {'x', 'X'} && fileName[n - 1] in {'t', 'T'}
  {
    var n := |fileName|;
    var l := ToLower(fileName);
    if n >= 4 {
      assert l[n - 4..] == [l[n - 4], l[n - 3], l[n - 2], l[n - 1]];
      assert ".txt" == ['.', 't', 'x', 't'];
    }
  }

  /** The reply to a file with parser errors: the first ten errors, and how many
      more there are (0 when all are shown). */
  function ErrorReport(errors: seq<string>): (r: (seq<string>, nat))
    ensures |r.0| <= ShownErrors && |r.0| <= |errors| && r.0 == errors[..|r.0|]
    ensures |r.0| + r.1 == |errors|
    ensures r.1 > 0 ==> |r.0| == ShownErrors
  {
    if |errors| > ShownErrors then (errors[..ShownErrors], |errors| - ShownErrors) else (errors, 0)
  }

  datatype DocumentOutcome =
    | Ignored                                  // not the owner, or no CTC flow waiting for a file
    | NotTxt                                   // the name does not end in .txt
    | TooLarge                                 // over 5 MB
    | ProcessingError                          // the download failed
    | FileErrors(shown: seq<string>, more: nat) // the parser reported errors
    | NoNumbers                                // no valid number in the file
    | Stored                                   // the numbers went into the CTC flow

  /** The document event. `content` is what the phone-number parser makes of the
      downloaded file, `None` when the download fails. Only a CTC flow waiting for
      a file takes a file; only a `.txt` file of at most 5 MB whose parse has no
      errors and at least one number is stored, and then the flow moves on to
      confirming the numbers. */
  method OnDocument(u: UserState, isOwner: bool, fileName: string, fileSize: nat, content: Option<ParseResult>)
    returns (outcome: DocumentOutcome)
    modifies u.ctcFlow
    ensures !isOwner || u.ctcFlow == null || old(u.ctcFlow.step) != WaitingFile ==> outcome == Ignored
    ensures isOwner && u.ctcFlow != null && old(u.ctcFlow.step) == WaitingFile ==>
      outcome ==
        if !IsTxtName(fileName) then NotTxt
        else if fileSize > MaxFileSize then TooLarge
        else if content.None? then ProcessingError
        else if |content.value.errors| > 0 then FileErrors(ErrorReport(content.value.errors).0, ErrorReport(content.value.errors).1)
        else if |content.value.phoneNumbers| == 0 then NoNumbers
        else Stored
    ensures outcome != Stored && u.ctcFlow != null ==> unchanged(u.ctcFlow)
    ensures outcome == Stored ==>
      u.ctcFlow != null && content.Some? &&
      u.ctcFlow.contactNumbers == content.value.phoneNumbers && u.ctcFlow.step == ConfirmNumbers
  {
    if !isOwner {
      return Ignored;
    }
    var flow := u.ctcFlow;
    if flow == null || flow.step != WaitingFile {
      return Ignored;
    }
    if !EndsWith(ToLower(fileName), ".txt") {
      return NotTxt;
    }
    if fileSize > MaxFileSize {
      return TooLarge;
    }
    if content.None? {
      return ProcessingError;
    }
    var phoneNumbers, errors := content.value.phoneNumbers, content.value.errors;
    if |errors| > 0 {
      var report := ErrorReport(errors);
      return FileErrors(report.0, report.1);
    }
    if |phoneNumbers| == 0 {
      return NoNumbers;
    }
    flow.contactNumbers := phoneNumbers;
    flow.step := ConfirmNumbers;
    outcome := Stored;
  }
}
