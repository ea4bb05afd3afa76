/**
 * Qualification workflows: a workspace's numbered steps, and each chat's
 * progress through them as the assistant analyses the customer's messages.
 * The step table is a sequence in storage order and the progress table a
 * map from chat id to record; the analysis itself comes from the language
 * model and enters as a parameter.
 */
module Workflows {
  import opened Text
  import OpenAI

  datatype WorkflowStep = WorkflowStep(workspaceId: nat, stepNumber: int, title: string, isRequired: bool)

  datatype Progress = Progress(
    chatId: string,
    workspaceId: nat,
    currentStep: int,
    completedSteps: seq<int>,
    stepResponses: map<string, map<string, string>>,
    isQualified: bool,
    needsHumanHelp: bool,
    qualificationScore: real)

  /**
   * The changes an update writes: the score always, the others only when
   * set.  `push` is the step the update means to append to the completed
   * steps.
   */
  datatype ProgressPatch = ProgressPatch(
    qualificationScore: real,
    push: Option<int>,
    stepResponses: Option<map<string, map<string, string>>>,
    currentStep: Option<int>,
    needsHumanHelp: bool,
    isQualified: bool)

  /** The number of steps stored for a workspace. */
  function StepCount(steps: seq<WorkflowStep>, ws: nat): (n: nat)
    ensures n <= |steps|
  {
    if steps == [] then 0
    else StepCount(steps[..|steps| - 1], ws) + (if steps[|steps| - 1].workspaceId == ws then 1 else 0)
  }

  /** The step numbers of a workspace's required steps, in storage order. */
  function RequiredSteps(steps: seq<WorkflowStep>, ws: nat): (r: seq<int>)
    ensures forall x :: x in r <==> exists i :: 0 <= i < |steps| && steps[i].workspaceId == ws && steps[i].isRequired && steps[i].stepNumber == x
  {
    if steps == [] then []
    else
      var s := steps[|steps| - 1];
      var rest := RequiredSteps(steps[..|steps| - 1], ws);
      assert forall i :: 0 <= i < |steps| - 1 ==> steps[..|steps| - 1][i] == steps[i];
      rest + (if s.workspaceId == ws && s.isRequired then [s.stepNumber] else [])
  }

  /** The completed steps that are required, with repetitions as listed. */
  function CompletedRequired(completed: seq<int>, required: seq<int>): (r: seq<int>)
    ensures |r| <= |completed|
    ensures forall x :: x in r <==> x in completed && x in required
  {
    if completed == [] then []
    else
      var rest := CompletedRequired(completed[..|completed| - 1], required);
      var c := completed[|completed| - 1];
      assert forall x :: x in completed <==> x in completed[..|completed| - 1] || x == c;
      rest + (if c in required then [c] else [])
  }

  /** The 80% rule: the completed required steps reach four fifths of the required steps. */
  predicate Qualifies(completed: seq<int>, required: seq<int>)
  {
    5 * |CompletedRequired(completed, required)| >= 4 * |required|
  }

  /** Python's truth value of an optional step number. */
  predicate Truthy(next: Option<int>)
  {
    next.Some? && next.value != 0
  }

  /** The record created for a chat without progress. */
  function FreshProgress(chatId: string, ws: nat, currentStep: int): Progress
  {
    Progress(chatId, ws, currentStep, [], map[], false, false, 0.0)
  }

  /** The update the service builds from an analysis, given the stored record and the required steps. */
  function PatchFor(p: Progress, a: OpenAI.WorkflowAnalysis, currentStep: int, required: seq<int>): ProgressPatch
  {
    ProgressPatch(
      a.confidenceScore,
      if a.stepCompleted && currentStep !in p.completedSteps then Some(currentStep) else None,
      if a.stepCompleted then Some(p.stepResponses[IntToString(currentStep) := a.extractedInfo]) else None,
      if a.stepCompleted && Truthy(a.nextStep) then a.nextStep else None,
      a.confidenceScore < 0.5 || a.needsClarification,
      Qualifies(p.completedSteps, required))
  }

  /**
   * The record after a patch is written.  With `applyPush` the step is
   * appended as a `$push` would; without it the completed steps stay.
   */
  function Apply(p: Progress, u: ProgressPatch, applyPush: bool): Progress
  {
    p.(qualificationScore := u.qualificationScore,
       completedSteps := if applyPush && u.push.Some? then p.completedSteps + [u.push.value] else p.completedSteps,
       stepResponses := if u.stepResponses.Some? then u.stepResponses.value else p.stepResponses,
       currentStep := if u.currentStep.Some? then u.currentStep.value else p.currentStep,
       needsHumanHelp := p.needsHumanHelp || u.needsHumanHelp,
       isQualified := p.isQualified || u.isQualified)
  }

  /** No step is listed twice among the completed steps. */
  predicate NoRepeats(s: seq<int>)
  {
    forall i, j :: 0 <= i < j < |s| ==> s[i] != s[j]
  }

  /**
   * What an update does to the record, whichever way the append goes: the
   * score becomes the confidence, a completed step records its answer under
   * its number and moves on to a truthy next step, help is flagged for a
   * confidence under 0.5 or a request for clarification, qualification
   * follows the 80% rule on the steps completed before the update (always
   * met when no step is required), and neither flag is ever cleared.
   */
  lemma PatchSpec(p: Progress, a: OpenAI.WorkflowAnalysis, currentStep: int, required: seq<int>, applyPush: bool)
    ensures var q := Apply(p, PatchFor(p, a, currentStep, required), applyPush);
      q.qualificationScore == a.confidenceScore
      && q.chatId == p.chatId && q.workspaceId == p.workspaceId
      && (a.stepCompleted ==> IntToString(currentStep) in q.stepResponses
                              && q.stepResponses[IntToString(currentStep)] == a.extractedInfo)
      && (!a.stepCompleted ==> q.stepResponses == p.stepResponses && q.currentStep == p.currentStep)
      && q.currentStep == (if a.stepCompleted && Truthy(a.nextStep) then a.nextStep.value else p.currentStep)
      && (q.needsHumanHelp <==> p.needsHumanHelp || a.confidenceScore < 0.5 || a.needsClarification)
      && (q.isQualified <==> p.isQualified || Qualifies(p.completedSteps, required))
      && (required == [] ==> q.isQualified)
  {
  }

  /**
   * Appending as intended keeps the completed steps free of repetitions and
   * adds the current step exactly when the step was completed.
   */
  lemma PushSpec(p: Progress, a: OpenAI.WorkflowAnalysis, currentStep: int, required: seq<int>)
    requires NoRepeats(p.completedSteps)
    ensures var q := Apply(p, PatchFor(p, a, currentStep, required), true);
      NoRepeats(q.completedSteps)
      && (a.stepCompleted ==> currentStep in q.completedSteps)
      && (forall x :: x in q.completedSteps <==> x in p.completedSteps || (a.stepCompleted && x == currentStep))
  {
  }

  /** The analysis given when the workspace has no step with the current number. */
  function UnknownStepAnalysis(): OpenAI.WorkflowAnalysis
  {
    OpenAI.WorkflowAnalysis(false, 0.0, map[], None, true,
                            Some("I'm not sure how to help with that. Let me connect you with a human agent."))
  }

  /** The first stored step of the workspace with the given number. */
  function FindStep(steps: seq<WorkflowStep>, ws: nat, number: int): (r: Option<WorkflowStep>)
    ensures r.Some? ==> r.value in steps && r.value.workspaceId == ws && r.value.stepNumber == number
    ensures r.None? <==> forall i :: 0 <= i < |steps| ==> !(steps[i].workspaceId == ws && steps[i].stepNumber == number)
  {
    if steps == [] then None
    else if steps[0].workspaceId == ws && steps[0].stepNumber == number then Some(steps[0])
    else
      var r := FindStep(steps[1..], ws, number);
      assert forall i :: 1 <= i < |steps| ==> steps[1..][i - 1] == steps[i];
      r
  }

  /**
   * `analyze_message_against_workflow`: the language model judges the
   * message against the current step when the workspace has one with that
   * number, and otherwise the fallback asks for a human.
   */
  function AnalyzeMessage(steps: seq<WorkflowStep>, ws: nat, currentStep: int,
                          judge: WorkflowStep -> OpenAI.WorkflowAnalysis): OpenAI.WorkflowAnalysis
  {
    match FindStep(steps, ws, currentStep)
    case None => UnknownStepAnalysis()
    case Some(step) => judge(step)
  }

  /** An unknown step gives an incomplete step with no confidence and no next step, asking for clarification. */
  lemma AnalyzeUnknownStep(steps: seq<WorkflowStep>, ws: nat, currentStep: int,
                           judge: WorkflowStep -> OpenAI.WorkflowAnalysis)
    requires forall i :: 0 <= i < |steps| ==> !(steps[i].workspaceId == ws && steps[i].stepNumber == currentStep)
    ensures var a := AnalyzeMessage(steps, ws, currentStep, judge);
      !a.stepCompleted && a.confidenceScore == 0.0 && a.nextStep.None? && a.needsClarification
      && a.extractedInfo == map[]
  {
  }

  class WorkflowService {
    var steps: seq<WorkflowStep>
    var progress: map<string, Progress>

    constructor()
      ensures steps == [] && progress == map[]
    {
      steps := [];
      progress := map[];
    }

    /** `create_workflow_step`: the step is numbered one past the workspace's step count. */
    method CreateWorkflowStep(ws: nat, title: string, isRequired: bool) returns (step: WorkflowStep)
      modifies this
      ensures step == WorkflowStep(ws, StepCount(old(steps), ws) + 1, title, isRequired)
      ensures steps == old(steps) + [step]
      ensures progress == old(progress)
    {
      var existing := StepCount(steps, ws);
      step := WorkflowStep(ws, existing + 1, title, isRequired);
      steps := steps + [step];
    }

    /**
     * `update_chat_workflow_progress` as written.  A chat without progress
     * first gets a fresh record.  When a newly completed step is to be
     * appended, the update carries the key `$push` inside its `$set`, a
     * field name the database refuses, so the whole update fails and the
     * record stays as it was; otherwise the update is written.
     */
    method UpdateChatWorkflowProgress(chatId: string, ws: nat, a: OpenAI.WorkflowAnalysis, currentStep: int)
      returns (r: Option<Progress>)
      modifies this
      ensures steps == old(steps)
      ensures chatId in progress
      ensures var p := if chatId in old(progress) then old(progress)[chatId] else FreshProgress(chatId, ws, currentStep);
        var u := PatchFor(p, a, currentStep, RequiredSteps(old(steps), ws));
        if u.push.Some? then r.None? && progress == old(progress)[chatId := p]
        else r == Some(Apply(p, u, false)) && progress == old(progress)[chatId := Apply(p, u, false)]
      ensures progress[chatId].completedSteps ==
        if chatId in old(progress) then old(progress)[chatId].completedSteps else []
    {
      if chatId !in progress {
        progress := progress[chatId := FreshProgress(chatId, ws, currentStep)];
      }
      var p := progress[chatId];
      var patch := ProgressPatch(a.confidenceScore, None, None, None, false, false);
      if a.stepCompleted {
        if currentStep !in p.completedSteps {
          patch := patch.(push := Some(currentStep));
        }
        patch := patch.(stepResponses := Some(p.stepResponses[IntToString(currentStep) := a.extractedInfo]));
        if Truthy(a.nextStep) {
          patch := patch.(currentStep := a.nextStep);
        }
      }
      if a.confidenceScore < 0.5 || a.needsClarification {
        patch := patch.(needsHumanHelp := true);
      }
      var required := RequiredSteps(steps, ws);
      if Qualifies(p.completedSteps, required) {
        patch := patch.(isQualified := true);
      }
      if patch.push.Some? {
        return None;
      }
      var q := Apply(p, patch, false);
      progress := progress[chatId := q];
      r := Some(q);
    }

    /** The same update with the append written as a `$push` beside the `$set`, as evidently meant. */
    method UpdateChatWorkflowProgressIntended(chatId: string, ws: nat, a: OpenAI.WorkflowAnalysis, currentStep: int)
      returns (r: Progress)
      modifies this
      ensures steps == old(steps)
      ensures var p := if chatId in old(progress) then old(progress)[chatId] else FreshProgress(chatId, ws, currentStep);
        r == Apply(p, PatchFor(p, a, currentStep, RequiredSteps(old(steps), ws)), true)
        && progress == old(progress)[chatId := r]
      ensures a.stepCompleted ==> currentStep in r.completedSteps
    {
      if chatId !in progress {
        progress := progress[chatId := FreshProgress(chatId, ws, currentStep)];
      }
      var p := progress[chatId];
      var patch := PatchFor(p, a, currentStep, RequiredSteps(steps, ws));
      r := Apply(p, patch, true);
      progress := progress[chatId := r];
    }
  }

  /** The steps of every workspace are numbered 1, 2, ... in storage order. */
  predicate Numbered(steps: seq<WorkflowStep>)
  {
    forall i :: 0 <= i < |steps| ==> steps[i].stepNumber == StepCount(steps[..i], steps[i].workspaceId) + 1
  }

  /** Creating steps one after another keeps every workspace numbered 1, 2, ... without gaps or repeats. */
  lemma {:induction false} NumberedAfterCreate(steps: seq<WorkflowStep>, ws: nat, title: string, isRequired: bool)
    requires Numbered(steps)
    ensures Numbered(steps + [WorkflowStep(ws, StepCount(steps, ws) + 1, title, isRequired)])
  {
    var s := steps + [WorkflowStep(ws, StepCount(steps, ws) + 1, title, isRequired)];
    forall i | 0 <= i < |s|
      ensures s[i].stepNumber == StepCount(s[..i], s[i].workspaceId) + 1
    {
      if i < |steps| {
        assert s[..i] == steps[..i];
      } else {
        assert s[..i] == steps;
      }
    }
  }

  /** In a numbered table two steps of one workspace never share a number. */
  lemma {:induction false} NumberedDistinct(steps: seq<WorkflowStep>, i: nat, j: nat)
    requires Numbered(steps)
    requires i < j < |steps| && steps[i].workspaceId == steps[j].workspaceId
    ensures steps[i].stepNumber < steps[j].stepNumber
  {
    StepCountGrows(steps, i, j, steps[i].workspaceId);
  }

  /** Counting a workspace's steps over a longer prefix that takes in one more of its steps gives more. */
  lemma {:induction false} StepCountGrows(steps: seq<WorkflowStep>, i: nat, j: nat, ws: nat)
    requires i < j <= |steps| && steps[i].workspaceId == ws
    ensures StepCount(steps[..i], ws) < StepCount(steps[..j], ws)
    decreases j
  {
    assert steps[..j][..j - 1] == steps[..j - 1];
    if j - 1 > i {
      StepCountGrows(steps, i, j - 1, ws);
    } else {
      assert steps[..j][j - 1] == steps[i];
    }
  }
}
