/** The contact section: the form's `validate` predicate, the `onSubmit` state machine
    (`idle` / `sending` / `sent` / `error`) driven by its timers, and the copy-to-clipboard
    feedback `copiedId`. Each `setTimeout` callback is an event method that may run only
    while such a timer is pending; the delays themselves are not modelled. */
module ContactForm {
  import opened JsText

  // ---------------------------------------------------------------------------------------
  // The e-mail pattern /.+@.+\..+/ tested (unanchored) against a string.

  /** No line terminator in `s[a..e]` (the regex `.` matches any other code unit). */
  ghost predicate NoLineBreak(s: string, a: int, e: int)
    requires 0 <= a <= e <= |s|
  {
    forall i :: a <= i < e ==> !IsLineTerminator(s[i])
  }

  /** The pattern occurs in `s`: some stretch `s[a..e]` without line terminators reads
      X `@` Y `.` Z with X, Y and Z non-empty. */
  ghost predicate PatternOccurs(s: string) {
    exists a, p, q, e :: 0 <= a < p && p + 1 < q && q + 1 < e <= |s|
      && s[p] == '@' && s[q] == '.' && NoLineBreak(s, a, e)
  }

  // The four partial matches a search can be in after reading `s`, each ending at |s|.

  /** Inside X: a non-empty stretch without line terminators ends `s`. */
  ghost predicate InX(s: string) {
    exists a :: 0 <= a < |s| && NoLineBreak(s, a, |s|)
  }

  /** Just read the `@` after a non-empty X. */
  ghost predicate AfterAt(s: string) {
    exists a :: 0 <= a < |s| - 1 && s[|s| - 1] == '@' && NoLineBreak(s, a, |s|)
  }

  /** Inside Y: X `@` and at least one more code unit. */
  ghost predicate InY(s: string) {
    exists a, p :: 0 <= a < p && p + 1 < |s| && s[p] == '@' && NoLineBreak(s, a, |s|)
  }

  /** Just read the `.` after a non-empty Y. */
  ghost predicate AfterDot(s: string) {
    exists a, p :: 0 <= a < p && p + 1 < |s| - 1 && s[p] == '@' && s[|s| - 1] == '.' && NoLineBreak(s, a, |s|)
  }

  /** The furthest the search has got: 5 once the pattern has occurred, else the furthest
      partial match (4 after the dot, 3 in Y, 2 after the at-sign, 1 in X, 0 none). */
  ghost function Progress(s: string): nat {
    if PatternOccurs(s) then 5
    else if AfterDot(s) then 4
    else if InY(s) then 3
    else if AfterAt(s) then 2
    else if InX(s) then 1
    else 0
  }

  /** One step of the search automaton on code unit `c`. */
  function Step(state: nat, c: char): nat {
    if state == 5 then 5
    else if IsLineTerminator(c) then 0
    else if state == 0 then 1
    else if state == 1 then (if c == '@' then 2 else 1)
    else if state == 2 then 3
    else if state == 3 then (if c == '.' then 4 else 3)
    else 5
  }

  /** The automaton's state after reading `s` from the left. */
  function SearchState(s: string): (state: nat)
    ensures state <= 5
  {
    if s == [] then 0 else Step(SearchState(s[..|s| - 1]), s[|s| - 1])
  }

  /** `/.+@.+\..+/.test(email)`. */
  predicate EmailMatches(email: string) {
    SearchState(email) == 5
  }

  lemma NoLineBreakExtend(s: string, c: char, a: int)
    requires 0 <= a <= |s|
    ensures NoLineBreak(s + [c], a, |s| + 1) <==> NoLineBreak(s, a, |s|) && !IsLineTerminator(c)
  {
    var t := s + [c];
    assert t[|s|] == c;
    assert forall i :: a <= i < |s| ==> t[i] == s[i];
  }

  lemma NoLineBreakPrefix(s: string, c: char, a: int, e: int)
    requires 0 <= a <= e <= |s|
    ensures NoLineBreak(s + [c], a, e) <==> NoLineBreak(s, a, e)
  {
    assert forall i :: a <= i < e ==> (s + [c])[i] == s[i];
  }

  lemma NoLineBreakShrink(s: string, a: int, e: int, e': int)
    requires 0 <= a <= e' <= e <= |s| && NoLineBreak(s, a, e)
    ensures NoLineBreak(s, a, e')
  {
  }

  lemma InXStep(s: string, c: char)
    ensures InX(s + [c]) <==> !IsLineTerminator(c)
  {
    var t := s + [c];
    assert t[|s|] == c;
    if !IsLineTerminator(c) {
      assert NoLineBreak(t, |s|, |t|);
    }
  }

  lemma AfterAtStep(s: string, c: char)
    ensures AfterAt(s + [c]) <==> c == '@' && InX(s)
  {
    var t := s + [c];
    assert t[|t| - 1] == c;
    if AfterAt(t) {
      var a :| 0 <= a < |t| - 1 && t[|t| - 1] == '@' && NoLineBreak(t, a, |t|);
      NoLineBreakExtend(s, c, a);
    }
    if c == '@' && InX(s) {
      var a :| 0 <= a < |s| && NoLineBreak(s, a, |s|);
      NoLineBreakExtend(s, c, a);
    }
  }

  lemma InYStep(s: string, c: char)
    ensures InY(s + [c]) <==> !IsLineTerminator(c) && (AfterAt(s) || InY(s))
  {
    var t := s + [c];
    assert forall i :: 0 <= i < |s| ==> t[i] == s[i];
    if InY(t) {
      var a, p :| 0 <= a < p && p + 1 < |t| && t[p] == '@' && NoLineBreak(t, a, |t|);
      NoLineBreakExtend(s, c, a);
      if p + 1 == |s| {
        assert AfterAt(s);
      } else {
        assert InY(s);
      }
    }
    if !IsLineTerminator(c) && AfterAt(s) {
      var a :| 0 <= a < |s| - 1 && s[|s| - 1] == '@' && NoLineBreak(s, a, |s|);
      NoLineBreakExtend(s, c, a);
      assert t[|s| - 1] == '@';
    }
    if !IsLineTerminator(c) && InY(s) {
      var a, p :| 0 <= a < p && p + 1 < |s| && s[p] == '@' && NoLineBreak(s, a, |s|);
      NoLineBreakExtend(s, c, a);
      assert t[p] == '@';
    }
  }

  lemma AfterDotStep(s: string, c: char)
    ensures AfterDot(s + [c]) <==> c == '.' && InY(s)
  {
    var t := s + [c];
    assert forall i :: 0 <= i < |s| ==> t[i] == s[i];
    assert t[|t| - 1] == c;
    if AfterDot(t) {
      var a, p :| 0 <= a < p && p + 1 < |t| - 1 && t[p] == '@' && t[|t| - 1] == '.' && NoLineBreak(t, a, |t|);
      NoLineBreakExtend(s, c, a);
      assert s[p] == '@';
    }
    if c == '.' && InY(s) {
      var a, p :| 0 <= a < p && p + 1 < |s| && s[p] == '@' && NoLineBreak(s, a, |s|);
      NoLineBreakExtend(s, c, a);
      assert t[p] == '@';
    }
  }

  lemma PatternStep(s: string, c: char)
    ensures PatternOccurs(s + [c]) <==> PatternOccurs(s) || (!IsLineTerminator(c) && AfterDot(s))
  {
    if PatternOccurs(s + [c]) {
      PatternStepBack(s, c);
    }
    if PatternOccurs(s) || (!IsLineTerminator(c) && AfterDot(s)) {
      PatternStepOn(s, c);
    }
  }

  /** An occurrence after one more code unit was already there, or ends with that unit. */
  lemma PatternStepBack(s: string, c: char)
    requires PatternOccurs(s + [c])
    ensures PatternOccurs(s) || (!IsLineTerminator(c) && AfterDot(s))
  {
    var t := s + [c];
    var a, p, q, e :| 0 <= a < p && p + 1 < q && q + 1 < e <= |t|
      && t[p] == '@' && t[q] == '.' && NoLineBreak(t, a, e);
    NoLineBreakShrink(t, a, e, if e <= |s| then e else |s|);
    NoLineBreakPrefix(s, c, a, if e <= |s| then e else |s|);
    assert s[p] == t[p];
    if e <= |s| {
      assert s[q] == '.' && NoLineBreak(s, a, e);
    } else if q + 1 < |s| {
      assert s[q] == '.' && NoLineBreak(s, a, |s|);
    } else {
      NoLineBreakExtend(s, c, a);
      assert s[|s| - 1] == '.';
    }
  }

  /** An occurrence stays one after one more code unit, and a finished partial match followed
      by a unit that is not a line terminator becomes one. */
  lemma PatternStepOn(s: string, c: char)
    requires PatternOccurs(s) || (!IsLineTerminator(c) && AfterDot(s))
    ensures PatternOccurs(s + [c])
  {
    var t := s + [c];
    if PatternOccurs(s) {
      var a, p, q, e :| 0 <= a < p && p + 1 < q && q + 1 < e <= |s|
        && s[p] == '@' && s[q] == '.' && NoLineBreak(s, a, e);
      NoLineBreakPrefix(s, c, a, e);
      assert t[p] == '@' && t[q] == '.';
    } else {
      var a, p :| 0 <= a < p && p + 1 < |s| - 1 && s[p] == '@' && s[|s| - 1] == '.' && NoLineBreak(s, a, |s|);
      NoLineBreakExtend(s, c, a);
      assert t[p] == '@' && t[|s| - 1] == '.';
    }
  }

  /** Each partial match implies the ones before it, so the furthest one decides. */
  lemma PartialMatchesNested(s: string)
    ensures AfterDot(s) ==> InY(s)
    ensures InY(s) || AfterAt(s) ==> InX(s)
  {
    if AfterDot(s) {
      var a, p :| 0 <= a < p && p + 1 < |s| - 1 && s[p] == '@' && s[|s| - 1] == '.' && NoLineBreak(s, a, |s|);
      assert InY(s);
    }
  }

  /** The automaton tracks the search exactly: its state after any string is the furthest
      progress of the pattern in that string. */
  lemma {:induction false} SearchStateIsProgress(s: string)
    ensures SearchState(s) == Progress(s)
  {
    if s == [] {
      assert !InX(s) && !AfterAt(s) && !InY(s) && !AfterDot(s) && !PatternOccurs(s);
    } else {
      var u, c := s[..|s| - 1], s[|s| - 1];
      assert s == u + [c];
      SearchStateIsProgress(u);
      InXStep(u, c);
      AfterAtStep(u, c);
      InYStep(u, c);
      AfterDotStep(u, c);
      PatternStep(u, c);
      PartialMatchesNested(u);
      PartialMatchesNested(s);
    }
  }

  /** The matcher accepts exactly the strings in which the pattern occurs. */
  lemma EmailMatchesIffPattern(email: string)
    ensures EmailMatches(email) <==> PatternOccurs(email)
  {
    SearchStateIsProgress(email);
  }

  // ---------------------------------------------------------------------------------------
  // validate

  /** `validate`: the trimmed name has at least 2 code units, the e-mail matches the pattern,
      and the trimmed message has more than 10. */
  predicate Validate(name: string, email: string, message: string) {
    |Trim(name)| >= 2 && EmailMatches(email) && |Trim(message)| > 10
  }

  /** `validate` holds exactly when all three conditions hold, the e-mail one read as the
      regex's own meaning. */
  lemma ValidateMeaning(name: string, email: string, message: string)
    ensures Validate(name, email, message) <==>
      |Trim(name)| >= 2 && PatternOccurs(email) && |Trim(message)| > 10
  {
    EmailMatchesIffPattern(email);
  }

  /** An all-whitespace name or message is always refused. */
  lemma BlankFieldsRejected(name: string, email: string, message: string)
    requires Blank(name) || Blank(message)
    ensures !Validate(name, email, message)
  {
    TrimEmptyIffBlank(name);
    TrimEmptyIffBlank(message);
  }

  // ---------------------------------------------------------------------------------------
  // The form and the copy feedback

  datatype FormState = Idle | Sending | Sent | Error

  class ContactSection {
    var copiedId: Option<string>
    var formState: FormState
    var name: string
    var email: string
    var message: string
    /** Pending `setTimeout` callbacks, by kind: back to idle after a refused submit, the
        simulated send delay inside `onSubmit`, back to idle and clear after a send, and
        clearing the copy feedback. */
    var errorResets: nat
    var sendDelays: nat
    var sentResets: nat
    var copyResets: nat

    /** Every state other than idle has a pending timer that will move the form on. */
    ghost predicate Valid()
      reads this
    {
      && (formState == Sending ==> sendDelays > 0)
      && (formState == Sent ==> sentResets > 0)
      && (formState == Error ==> errorResets > 0)
      && (copiedId.Some? ==> copyResets > 0)
    }

    constructor ()
      ensures Valid()
      ensures formState == Idle && copiedId == None && name == [] && email == [] && message == []
      ensures errorResets == 0 && sendDelays == 0 && sentResets == 0 && copyResets == 0
    {
      copiedId := None;
      formState := Idle;
      name, email, message := [], [], [];
      errorResets, sendDelays, sentResets, copyResets := 0, 0, 0, 0;
    }

    /** The submit button's `disabled`. */
    function Disabled(): bool
      reads this
    {
      formState == Sending
    }

    /** A channel row shows the "copied" check exactly when its value was the last copied. */
    function ShowsCopied(channelValue: string): bool
      reads this
    {
      copiedId == Some(channelValue)
    }

    method SetName(text: string)
      modifies this`name
      ensures name == text
    {
      name := text;
    }

    method SetEmail(text: string)
      modifies this`email
      ensures email == text
    {
      email := text;
    }

    method SetMessage(text: string)
      modifies this`message
      ensures message == text
    {
      message := text;
    }

    /** `copy(value)`: once the clipboard write succeeds, the value becomes `copiedId` and a
        reset is scheduled; when the write fails or there is no clipboard, nothing happens. */
    method Copy(value: string, written: bool)
      requires Valid()
      modifies this`copiedId, this`copyResets
      ensures Valid()
      ensures written ==> copiedId == Some(value) && copyResets == old(copyResets) + 1
      ensures written ==> ShowsCopied(value) && forall v :: ShowsCopied(v) ==> v == value
      ensures !written ==> copiedId == old(copiedId) && copyResets == old(copyResets)
    {
      if written {
        copiedId := Some(value);
        copyResets := copyResets + 1;
      }
    }

    /** The copy-feedback timer: `copiedId` back to null. */
    method CopyTimerFires()
      requires Valid() && copyResets > 0
      modifies this`copiedId, this`copyResets
      ensures Valid()
      ensures copiedId == None && copyResets == old(copyResets) - 1
      ensures forall v :: !ShowsCopied(v)
    {
      copiedId := None;
      copyResets := copyResets - 1;
    }

    /** `onSubmit` up to its `await`. While sending the button is disabled and no submit
        reaches the handler. A form that fails `validate` goes to `error` with its fields
        untouched and a reset scheduled; a valid one goes to `sending` with the send delay
        pending. Nothing is sent anywhere. */
    method Submit()
      requires Valid()
      modifies this`formState, this`errorResets, this`sendDelays
      ensures Valid()
      ensures old(Disabled()) ==>
        formState == Sending && errorResets == old(errorResets) && sendDelays == old(sendDelays)
      ensures old(formState) != Sending && !Validate(name, email, message) ==>
        formState == Error && errorResets == old(errorResets) + 1 && sendDelays == old(sendDelays)
      ensures old(formState) != Sending && Validate(name, email, message) ==>
        formState == Sending && sendDelays == old(sendDelays) + 1 && errorResets == old(errorResets)
    {
      if formState != Sending {
        if Validate(name, email, message) {
          formState := Sending;
          sendDelays := sendDelays + 1;
        } else {
          formState := Error;
          errorResets := errorResets + 1;
        }
      }
    }

    /** The reset after a refused submit: back to `idle`, fields kept. */
    method ErrorTimerFires()
      requires Valid() && errorResets > 0
      modifies this`formState, this`errorResets
      ensures Valid()
      ensures formState == Idle && errorResets == old(errorResets) - 1
    {
      formState := Idle;
      errorResets := errorResets - 1;
    }

    /** The end of the simulated send delay: `sent`, and the final reset scheduled. */
    method SendDelayElapses()
      requires Valid() && sendDelays > 0
      modifies this`formState, this`sendDelays, this`sentResets
      ensures Valid()
      ensures formState == Sent && sendDelays == old(sendDelays) - 1 && sentResets == old(sentResets) + 1
    {
      formState := Sent;
      sendDelays := sendDelays - 1;
      sentResets := sentResets + 1;
    }

    /** The reset after a send: back to `idle` with all three fields cleared. */
    method SentTimerFires()
      requires Valid() && sentResets > 0
      modifies this`formState, this`name, this`email, this`message, this`sentResets
      ensures Valid()
      ensures formState == Idle && name == [] && email == [] && message == []
      ensures sentResets == old(sentResets) - 1
    {
      formState := Idle;
      name, email, message := [], [], [];
      sentResets := sentResets - 1;
    }
  }
}
