// `OnboardingDialog`: a four-question form (roles, experience, genres,
// interests). The form updaters are pure functions of the previous form;
// the dialog steps through the questions, saving each answer, and on the
// last one sends the whole profile and marks the user onboarded. The user
// API's replies are parameters and its calls are logged.
module Onboarding {
  import opened Wrappers
  import SeqUtil

  datatype RoleWithLevel = RoleWithLevel(role: string, level: string, isOther: bool, order: Option<int>)

  datatype FormData = FormData(roles: seq<RoleWithLevel>, roleOther: string, experience: string,
                               genre: seq<string>, genreOther: string, interest: seq<string>)

  /** The fields a question step answers. */
  datatype StepField = RoleField | ExperienceField | GenreField | InterestField

  datatype ProfessionalRole = ProfessionalRole(description: string, level: string)

  datatype UserAttributes = UserAttributes(professionalRoles: seq<ProfessionalRole>, genres: seq<string>,
                                           mostInterestedIn: seq<string>)

  datatype ApiCall = Update(userAttributes: UserAttributes) | SetOnboardingStatus

  const Other := "Other"
  const DefaultLevel := "Intermediate"
  const MaxRoles := 3
  const MaxInterests := 3

  /** The question steps in order. */
  const StepFields: seq<StepField> := [RoleField, ExperienceField, GenreField, InterestField]

  const EmptyForm := FormData([], "", "", [], "", [])

  /** JavaScript truthiness of a number. */
  predicate TruthyNumber(n: Option<int>)
  {
    n.Some? && n.value != 0
  }

  /** `prev.roles.find((r) => r.role === role)?.order`. */
  function RemovedOrder(roles: seq<RoleWithLevel>, role: string): Option<int>
  {
    match SeqUtil.FindFirst(roles, (r: RoleWithLevel) => r.role == role)
    case None => None
    case Some(r) => r.order
  }

  /** Every remaining role numbered after the removed one moves up by one. */
  function Renumber(roles: seq<RoleWithLevel>, removedOrder: Option<int>): seq<RoleWithLevel>
  {
    SeqUtil.Map(roles, (r: RoleWithLevel) =>
      if TruthyNumber(removedOrder) && TruthyNumber(r.order) && r.order.value > removedOrder.value
      then r.(order := Some(r.order.value - 1)) else r)
  }

  /**
   * `handleRoleToggle`. Checking adds the role as the next-numbered entry at
   * level `Intermediate`, unless three roles are already chosen; unchecking
   * removes it, renumbers the later ones and, for `Other`, clears its text.
   */
  function RoleToggle(prev: FormData, role: string, checked: bool): FormData
  {
    if checked then
      if |prev.roles| >= MaxRoles then prev
      else prev.(roles := prev.roles + [RoleWithLevel(role, DefaultLevel, role == Other, Some(|prev.roles| + 1))])
    else
      var removed := RemovedOrder(prev.roles, role);
      var filtered := SeqUtil.Filter(prev.roles, (r: RoleWithLevel) => r.role != role);
      var reordered := Renumber(filtered, removed);
      if role == Other then prev.(roles := reordered, roleOther := "") else prev.(roles := reordered)
  }

  /**
   * `handleInputChange` for the step fields. Roles go through the toggle, the
   * experience is replaced; genres and interests add a value not yet present
   * (interests only below three) or remove it, and removing the `Other` genre
   * clears its text.
   */
  function InputChange(prev: FormData, field: StepField, value: string, checked: bool): FormData
  {
    match field
    case RoleField => RoleToggle(prev, value, checked)
    case ExperienceField => prev.(experience := value)
    case GenreField =>
      if checked then
        if value in prev.genre then prev else prev.(genre := prev.genre + [value])
      else
        var updated := SeqUtil.Filter(prev.genre, (v: string) => v != value);
        if value == Other then prev.(genre := updated, genreOther := "") else prev.(genre := updated)
    case InterestField =>
      if checked then
        if value in prev.interest then prev
        else if |prev.interest| >= MaxInterests then prev
        else prev.(interest := prev.interest + [value])
      else prev.(interest := SeqUtil.Filter(prev.interest, (v: string) => v != value))
  }

  /** `isStepValid` for a question step. */
  predicate StepValid(field: StepField, f: FormData)
  {
    match field
    case RoleField => |f.roles| > 0 && !((exists i :: 0 <= i < |f.roles| && f.roles[i].isOther) && f.roleOther == "")
    case ExperienceField => f.experience != ""
    case GenreField => |f.genre| > 0 && !(Other in f.genre && f.genreOther == "")
    case InterestField => |f.interest| > 0
  }

  /** The roles as saved by a question step: `Other` without its text dropped, `Other` named by its text. */
  function StepRoles(f: FormData, level: string): seq<ProfessionalRole>
  {
    var kept := SeqUtil.Filter(f.roles, (r: RoleWithLevel) => !(r.isOther && f.roleOther == ""));
    SeqUtil.Map(kept, (r: RoleWithLevel) => ProfessionalRole(if r.isOther then f.roleOther else r.role, level))
  }

  /** The genres as saved by the genre step: the named ones in order, then the `Other` text if given. */
  function StepGenres(f: FormData): seq<string>
  {
    SeqUtil.Filter(f.genre, (g: string) => g != Other) + (if Other in f.genre && f.genreOther != "" then [f.genreOther] else [])
  }

  /** `getCurrentQuestionData`: the answer of one step, every other list empty. */
  function QuestionData(field: StepField, f: FormData): UserAttributes
  {
    match field
    case RoleField => UserAttributes(StepRoles(f, if f.experience != "" then f.experience else DefaultLevel), [], [])
    case ExperienceField => UserAttributes(if |f.roles| > 0 then StepRoles(f, f.experience) else [], [], [])
    case GenreField => UserAttributes([], StepGenres(f), [])
    case InterestField => UserAttributes([], [], f.interest)
  }

  /** The first position of x, if any. */
  function IndexOf(xs: seq<string>, x: string): (r: Option<nat>)
    ensures r.None? <==> x !in xs
    ensures r.Some? ==> r.value < |xs| && xs[r.value] == x && x !in xs[..r.value]
  {
    if xs == [] then None
    else if xs[0] == x then Some(0)
    else
      var rest := IndexOf(xs[1..], x);
      if rest.None? then None
      else
        assert xs[..rest.value + 1] == [xs[0]] + xs[1..][..rest.value];
        Some(rest.value + 1)
  }

  /** The completion's genres: the first `Other` replaced in place by its text, when both are given. */
  function CompletionGenres(f: FormData): seq<string>
  {
    if Other in f.genre && f.genreOther != "" then
      var i := IndexOf(f.genre, Other).value;
      f.genre[..i] + [f.genreOther] + f.genre[i + 1..]
    else f.genre
  }

  /** The completion's roles: `Other` renamed to its text when given; level the role's own, else the experience, else `Intermediate`. */
  function CompletionRoles(f: FormData): seq<ProfessionalRole>
  {
    SeqUtil.Map(f.roles, (r: RoleWithLevel) =>
      ProfessionalRole(if r.isOther && f.roleOther != "" then f.roleOther else r.role,
                       if r.level != "" then r.level else if f.experience != "" then f.experience else DefaultLevel))
  }

  function CompletionData(f: FormData): UserAttributes
  {
    UserAttributes(CompletionRoles(f), CompletionGenres(f), f.interest)
  }

  predicate HasContent(u: UserAttributes)
  {
    |u.professionalRoles| > 0 || |u.genres| > 0 || |u.mostInterestedIn| > 0
  }

  /** Roles numbered 1, 2, ... by position, as the toggle keeps them. */
  predicate Numbered(roles: seq<RoleWithLevel>)
  {
    forall i :: 0 <= i < |roles| ==> roles[i].order == Some(i + 1)
  }

  predicate DistinctRoles(roles: seq<RoleWithLevel>)
  {
    forall i, j :: 0 <= i < j < |roles| ==> roles[i].role != roles[j].role
  }

  predicate HasRole(roles: seq<RoleWithLevel>, role: string)
  {
    exists i :: 0 <= i < |roles| && roles[i].role == role
  }

  /** Adding a role when three are chosen changes nothing. */
  lemma RoleLimit(prev: FormData, role: string)
    requires |prev.roles| >= MaxRoles
    ensures RoleToggle(prev, role, true) == prev
  {
  }

  lemma RemovedOrderAt(roles: seq<RoleWithLevel>, role: string, k: nat)
    requires k < |roles| && roles[k].role == role && DistinctRoles(roles)
    ensures RemovedOrder(roles, role) == roles[k].order
  {
    var p := (r: RoleWithLevel) => r.role == role;
    SeqUtil.FindFirstSpec(roles, p);
    var j :| 0 <= j < |roles| && roles[j] == SeqUtil.FindFirst(roles, p).value && p(roles[j]) &&
      forall i :: 0 <= i < j ==> !p(roles[i]);
  }

  /** Renumbering after dropping the role at position k of a numbered list numbers the rest by position again. */
  lemma RenumberAfterDrop(roles: seq<RoleWithLevel>, k: nat)
    requires Numbered(roles) && k < |roles|
    ensures Numbered(Renumber(roles[..k] + roles[k + 1..], Some(k + 1)))
  {
    var filtered := roles[..k] + roles[k + 1..];
    var next := Renumber(filtered, Some(k + 1));
    forall i | 0 <= i < |next| ensures next[i].order == Some(i + 1) {
      if i < k {
        assert filtered[i] == roles[i];
      } else {
        assert filtered[i] == roles[i + 1];
      }
    }
  }

  /** Dropping the role at position k of a list of distinct roles leaves distinct roles, none of them the dropped one. */
  lemma DropKeepsDistinct(roles: seq<RoleWithLevel>, k: nat)
    requires DistinctRoles(roles) && k < |roles|
    ensures var next := Renumber(roles[..k] + roles[k + 1..], Some(k + 1));
      DistinctRoles(next) && !HasRole(next, roles[k].role)
  {
    var filtered := roles[..k] + roles[k + 1..];
    var next := Renumber(filtered, Some(k + 1));
    assert forall i :: 0 <= i < |next| ==> next[i].role == filtered[i].role;
    assert forall i :: 0 <= i < |filtered| ==> filtered[i] == roles[if i < k then i else i + 1];
  }

  /**
   * With distinct, consecutively numbered roles, a toggle the checkbox can
   * produce (checking an unchosen role or unchecking a chosen one) keeps the
   * roles distinct and numbered 1..n, with at most three of them. Removing
   * takes the role out; adding puts the new one last.
   */
  lemma ToggleKeepsNumbering(prev: FormData, role: string, checked: bool)
    requires Numbered(prev.roles) && DistinctRoles(prev.roles) && |prev.roles| <= MaxRoles
    requires checked ==> !HasRole(prev.roles, role)
    requires !checked ==> HasRole(prev.roles, role)
    ensures var next := RoleToggle(prev, role, checked).roles;
      Numbered(next) && DistinctRoles(next) && |next| <= MaxRoles
      && (!checked ==> |next| == |prev.roles| - 1 && !HasRole(next, role))
      && (checked && |prev.roles| < MaxRoles ==> |next| == |prev.roles| + 1 && next[|prev.roles|].role == role)
  {
    if !checked {
      var k :| 0 <= k < |prev.roles| && prev.roles[k].role == role;
      SeqUtil.FilterDropsOne(prev.roles, (r: RoleWithLevel) => r.role != role, k);
      RemovedOrderAt(prev.roles, role, k);
      RenumberAfterDrop(prev.roles, k);
      DropKeepsDistinct(prev.roles, k);
    }
  }

  /** Unchecking `Other` clears the role's text, and unchecking the `Other` genre clears the genre's text. */
  lemma OtherTextCleared(prev: FormData)
    ensures RoleToggle(prev, Other, false).roleOther == ""
    ensures InputChange(prev, GenreField, Other, false).genreOther == ""
  {
  }

  /** Interests never exceed three and are never duplicated. */
  lemma {:induction false} InterestsBounded(prev: FormData, value: string, checked: bool)
    requires |prev.interest| <= MaxInterests
    requires forall i, j :: 0 <= i < j < |prev.interest| ==> prev.interest[i] != prev.interest[j]
    ensures var next := InputChange(prev, InterestField, value, checked).interest;
      |next| <= MaxInterests && forall i, j :: 0 <= i < j < |next| ==> next[i] != next[j]
  {
    var next := InputChange(prev, InterestField, value, checked).interest;
    if !checked {
      var p := (v: string) => v != value;
      SeqUtil.FilterIsSubsequence(prev.interest, p);
      SubsequenceKeepsDistinct(next, prev.interest);
    }
  }

  lemma {:induction false} SubsequenceKeepsDistinct(a: seq<string>, b: seq<string>)
    requires SeqUtil.IsSubsequence(a, b)
    requires forall i, j :: 0 <= i < j < |b| ==> b[i] != b[j]
    ensures forall i, j :: 0 <= i < j < |a| ==> a[i] != a[j]
  {
    if a != [] && b != [] {
      var b' := b[1..];
      assert forall i, j :: 0 <= i < j < |b'| ==> b'[i] != b'[j] by {
        forall i, j | 0 <= i < j < |b'| ensures b'[i] != b'[j] {
          assert b'[i] == b[i + 1] && b'[j] == b[j + 1];
        }
      }
      if a[0] == b[0] && SeqUtil.IsSubsequence(a[1..], b') {
        SubsequenceKeepsDistinct(a[1..], b');
        SeqUtil.SubsequenceMember(a[1..], b');
        forall j | 0 < j < |a| ensures a[0] != a[j] {
          assert a[j] == a[1..][j - 1];
          assert a[j] in b';
          var m :| 0 <= m < |b'| && b'[m] == a[j];
          assert b[m + 1] == a[j];
        }
        forall i, j | 0 <= i < j < |a| ensures a[i] != a[j] {
          if i > 0 {
            assert a[i] == a[1..][i - 1] && a[j] == a[1..][j - 1];
          }
        }
      } else {
        SubsequenceKeepsDistinct(a, b');
      }
    }
  }

  /**
   * When the three list questions have been answered validly, the completion
   * has something to send: every list of the profile is non-empty.
   */
  lemma ValidAnswersGiveFullProfile(f: FormData)
    requires StepValid(RoleField, f) && StepValid(GenreField, f) && StepValid(InterestField, f)
    ensures var u := CompletionData(f);
      |u.professionalRoles| == |f.roles| > 0 && |u.genres| == |f.genre| > 0 && u.mostInterestedIn == f.interest
      && HasContent(u)
  {
    if Other in f.genre && f.genreOther != "" {
      var i := IndexOf(f.genre, Other).value;
      assert |f.genre[..i] + [f.genreOther] + f.genre[i + 1..]| == |f.genre|;
    }
  }

  /** A valid role step saves every chosen role, `Other` under its text. */
  lemma ValidRoleStepKeepsAllRoles(f: FormData)
    requires StepValid(RoleField, f)
    ensures |QuestionData(RoleField, f).professionalRoles| == |f.roles|
  {
    var p := (r: RoleWithLevel) => !(r.isOther && f.roleOther == "");
    forall i | 0 <= i < |f.roles| ensures p(f.roles[i]) {
      if f.roles[i].isOther {
        assert exists i :: 0 <= i < |f.roles| && f.roles[i].isOther;
      }
    }
    SeqUtil.FilterKeepsAll(f.roles, p);
  }

  /** With one `Other` genre at position i, the completion puts the text at position i. */
  lemma CompletionGenresAt(f: FormData, i: nat)
    requires i < |f.genre| && f.genre[i] == Other && f.genreOther != ""
    requires forall j :: 0 <= j < |f.genre| && j != i ==> f.genre[j] != Other
    ensures CompletionGenres(f) == f.genre[..i] + [f.genreOther] + f.genre[i + 1..]
  {
    assert f.genre[i] in f.genre;
    var idx := IndexOf(f.genre, Other).value;
    assert f.genre[idx] == Other;
  }

  /**
   * With one `Other` genre and its text given, the genre step and the
   * completion send the same genres, the step with the text last, the
   * completion with it in `Other`'s place.
   */
  lemma GenresAgree(f: FormData, i: nat)
    requires i < |f.genre| && f.genre[i] == Other && f.genreOther != ""
    requires forall j :: 0 <= j < |f.genre| && j != i ==> f.genre[j] != Other
    ensures multiset(StepGenres(f)) == multiset(CompletionGenres(f))
    ensures CompletionGenres(f) == f.genre[..i] + [f.genreOther] + f.genre[i + 1..]
  {
    CompletionGenresAt(f, i);
    assert f.genre[i] in f.genre;
    SeqUtil.FilterDropsOne(f.genre, (g: string) => g != Other, i);
    SeqUtil.MultisetMoveLast(f.genre[..i], f.genre[i + 1..], f.genreOther);
  }

  /**
   * The completed profile keeps the level the toggle gave each role, so the
   * chosen experience never reaches it: every role added by the toggle is
   * sent at level `Intermediate`.
   */
  lemma CompletionIgnoresExperience(f: FormData)
    requires forall i :: 0 <= i < |f.roles| ==> f.roles[i].level == DefaultLevel
    ensures forall i :: 0 <= i < |f.roles| ==> CompletionData(f).professionalRoles[i].level == DefaultLevel
  {
  }

  class OnboardingFlow {
    var currentStepIndex: int
    var isUpdating: bool
    var showSuccessMessage: bool
    var formData: FormData
    var apiCalls: seq<ApiCall>

    predicate Valid()
      reads this
    {
      0 <= currentStepIndex < |StepFields|
    }

    constructor ()
      ensures Valid() && currentStepIndex == 0 && !isUpdating && !showSuccessMessage
      ensures formData == EmptyForm && apiCalls == []
    {
      currentStepIndex := 0;
      isUpdating := false;
      showSuccessMessage := false;
      formData := EmptyForm;
      apiCalls := [];
    }

    /** An answer to a question changes only the form. */
    method HandleInputChange(field: StepField, value: string, checked: bool)
      requires Valid()
      modifies this
      ensures Valid()
      ensures formData == InputChange(old(formData), field, value, checked)
      ensures currentStepIndex == old(currentStepIndex) && apiCalls == old(apiCalls)
      ensures isUpdating == old(isUpdating) && showSuccessMessage == old(showSuccessMessage)
    {
      formData := InputChange(formData, field, value, checked);
    }

    /** The "Please specify" box: the role's text on the role step, the genre's text otherwise. */
    method HandleOtherText(text: string)
      requires Valid()
      modifies this
      ensures Valid()
      ensures formData == if StepFields[old(currentStepIndex)] == RoleField
        then old(formData).(roleOther := text) else old(formData).(genreOther := text)
      ensures currentStepIndex == old(currentStepIndex) && apiCalls == old(apiCalls)
      ensures isUpdating == old(isUpdating) && showSuccessMessage == old(showSuccessMessage)
    {
      if StepFields[currentStepIndex] == RoleField {
        formData := formData.(roleOther := text);
      } else {
        formData := formData.(genreOther := text);
      }
    }

    /**
     * `handleComplete`: send the whole profile if it has any content, then
     * mark the user onboarded and show the success message; a failing call
     * ends it there.
     */
    method HandleComplete(updateFails: bool, statusFails: bool)
      requires Valid()
      modifies this
      ensures Valid() && !isUpdating
      ensures var u := CompletionData(old(formData));
        var sends := HasContent(u);
        apiCalls == old(apiCalls) + (if sends then [Update(u)] else [])
                    + (if sends && updateFails then [] else [SetOnboardingStatus])
        && showSuccessMessage == (old(showSuccessMessage) || (!(sends && updateFails) && !statusFails))
      ensures currentStepIndex == old(currentStepIndex) && formData == old(formData)
    {
      var finalUserData := CompletionData(formData);
      if HasContent(finalUserData) {
        apiCalls := apiCalls + [Update(finalUserData)];
        if updateFails {
          isUpdating := false;
          return;
        }
      }
      apiCalls := apiCalls + [SetOnboardingStatus];
      if !statusFails {
        showSuccessMessage := true;
      }
      isUpdating := false;
    }

    /**
     * `handleNext`: nothing on an invalid step; on the last step the
     * completion; otherwise save this step's answer and, if that succeeds,
     * move to the next step.
     */
    method HandleNext(updateFails: bool, statusFails: bool)
      requires Valid()
      modifies this
      ensures Valid()
      ensures formData == old(formData)
      ensures !StepValid(StepFields[old(currentStepIndex)], old(formData)) ==>
        currentStepIndex == old(currentStepIndex) && apiCalls == old(apiCalls)
        && isUpdating == old(isUpdating) && showSuccessMessage == old(showSuccessMessage)
      ensures StepValid(StepFields[old(currentStepIndex)], old(formData)) && old(currentStepIndex) < |StepFields| - 1 ==>
        apiCalls == old(apiCalls) + [Update(QuestionData(StepFields[old(currentStepIndex)], old(formData)))]
        && currentStepIndex == old(currentStepIndex) + (if updateFails then 0 else 1)
        && !isUpdating && showSuccessMessage == old(showSuccessMessage)
      ensures StepValid(StepFields[old(currentStepIndex)], old(formData)) && old(currentStepIndex) == |StepFields| - 1 ==>
        var u := CompletionData(old(formData));
        var sends := HasContent(u);
        apiCalls == old(apiCalls) + (if sends then [Update(u)] else [])
                    + (if sends && updateFails then [] else [SetOnboardingStatus])
        && currentStepIndex == old(currentStepIndex) && !isUpdating
        && showSuccessMessage == (old(showSuccessMessage) || (!(sends && updateFails) && !statusFails))
    {
      var field := StepFields[currentStepIndex];
      if !StepValid(field, formData) {
        return;
      }
      var isLastStep := currentStepIndex == |StepFields| - 1;
      isUpdating := true;
      if isLastStep {
        HandleComplete(updateFails, statusFails);
        return;
      }
      var userData := QuestionData(field, formData);
      apiCalls := apiCalls + [Update(userData)];
      if !updateFails {
        currentStepIndex := currentStepIndex + 1;
      }
      isUpdating := false;
    }

    /** `handleBack`, offered only after the first step. */
    method HandleBack()
      requires Valid() && currentStepIndex > 0
      modifies this
      ensures Valid()
      ensures currentStepIndex == old(currentStepIndex) - 1
      ensures formData == old(formData) && apiCalls == old(apiCalls)
      ensures isUpdating == old(isUpdating) && showSuccessMessage == old(showSuccessMessage)
    {
      currentStepIndex := currentStepIndex - 1;
    }
  }
}
