/**
 * The result shaping and the retry policy of the MCP server's AI provider
 * (mcp/app/providers/ai_provider.py). The LangChain agent is an input: each
 * attempt either answers with the executor's response dictionary or raises
 * with a message. The tools an attempt creates do not influence the outcome
 * and are not modelled here.
 */
module AiProvider {
  import opened Wrappers
  import opened Json
  import Text

  const ModelName: string := "gemini-2.5-pro-exp-03-25"
  const MaxRetries: nat := 3
  const FirstDelay: int := 2

  /** One `executor.ainvoke(...)`: the response dictionary, or the message of the exception it raised. */
  datatype AgentRun = Answered(response: Object) | Failed(message: string)

  /** The `metadata` entry of every result. */
  function Metadata(userId: Value): Value {
    JObj(map["model" := JStr(ModelName), "user_id" := userId])
  }

  /** `response.get("output", "")` under the result key `key`, with the metadata beside it. */
  function Shaped(key: string, userId: Value, response: Object): Value {
    JObj(map[key := GetOr(response, "output", JStr("")), "metadata" := Metadata(userId)])
  }

  /** `analyze_activity`: a run that answers is shaped under "analysis"; a failure is re-raised as it is. */
  function AnalyzeActivity(userId: Value, run: AgentRun): (r: Result<Value, string>)
    ensures r.Ok? <==> run.Answered?
    ensures run.Failed? ==> r == Err(run.message)
  {
    match run
    case Answered(response) => Ok(Shaped("analysis", userId, response))
    case Failed(message) => Err(message)
  }

  /** `"429" in error_message`: the rate-limit marker that makes an attempt worth repeating. */
  predicate RateLimited(message: string) {
    Text.Contains(message, "429")
  }

  /** The exception `create_race_training` raises after attempt `attempt` (counted from 1). */
  function AttemptFailure(attempt: nat, message: string): string {
    "훈련 일정 생성 실패 (시도 " + Text.IntToString(attempt) + "/" + Text.IntToString(MaxRetries) + "): " + message
  }

  /** What `create_race_training` returns or raises, and the delays it slept for in between. */
  datatype TrainingRun = TrainingRun(result: Result<Value, string>, sleeps: seq<int>)

  /**
   * The loop of `create_race_training` from attempt `attempt` (counted from 0)
   * with `retry_delay == delay`: an answer is shaped under "training_schedule";
   * a rate-limited failure before the last attempt sleeps `delay` and tries
   * again with the delay doubled; any other failure raises.
   */
  function Training(userId: Value, run: nat -> AgentRun, attempt: nat, delay: int): TrainingRun
    requires attempt < MaxRetries
    decreases MaxRetries - attempt
  {
    match run(attempt)
    case Answered(response) => TrainingRun(Ok(Shaped("training_schedule", userId, response)), [])
    case Failed(message) =>
      if RateLimited(message) && attempt < MaxRetries - 1 then
        var rest := Training(userId, run, attempt + 1, delay * 2);
        TrainingRun(rest.result, [delay] + rest.sleeps)
      else
        TrainingRun(Err(AttemptFailure(attempt + 1, message)), [])
  }

  /** `create_race_training`; `run(k)` is what the agent does on attempt `k` (counted from 0). */
  method CreateRaceTraining(userId: Value, run: nat -> AgentRun) returns (result: Result<Value, string>, sleeps: seq<int>)
    ensures TrainingRun(result, sleeps) == Training(userId, run, 0, FirstDelay)
  {
    var retryDelay := FirstDelay;
    sleeps := [];
    for attempt := 0 to MaxRetries
      invariant attempt < MaxRetries
      invariant var rest := Training(userId, run, attempt, retryDelay);
        Training(userId, run, 0, FirstDelay) == TrainingRun(rest.result, sleeps + rest.sleeps)
    {
      match run(attempt)
      case Answered(response) =>
        result := Ok(Shaped("training_schedule", userId, response));
        return;
      case Failed(message) =>
        if RateLimited(message) && attempt < MaxRetries - 1 {
          sleeps := sleeps + [retryDelay];
          retryDelay := retryDelay * 2;
        } else {
          result := Err(AttemptFailure(attempt + 1, message));
          return;
        }
    }
    assert false;
  }

  /**
   * The run from attempt `attempt` on: the attempt that decides is
   * `attempt + |sleeps|`, never beyond the last; every attempt before it
   * failed rate-limited; the delays are `delay`, then twice that; the result
   * is the deciding attempt's answer, or its failure wrapped with its number,
   * and a rate-limited failure decides only on the last attempt.
   */
  lemma {:induction false} TrainingFrom(userId: Value, run: nat -> AgentRun, attempt: nat, delay: int)
    requires attempt < MaxRetries
    ensures var t := Training(userId, run, attempt, delay);
      var k := attempt + |t.sleeps|;
      && k < MaxRetries
      && |t.sleeps| <= 2
      && t.sleeps == [delay, 2 * delay][..|t.sleeps|]
      && (forall j | attempt <= j < k :: run(j).Failed? && RateLimited(run(j).message))
      && (run(k).Answered? ==> t.result == Ok(Shaped("training_schedule", userId, run(k).response)))
      && (run(k).Failed? ==> t.result == Err(AttemptFailure(k + 1, run(k).message)))
      && (run(k).Failed? && RateLimited(run(k).message) ==> k == MaxRetries - 1)
    decreases MaxRetries - attempt
  {
    var t := Training(userId, run, attempt, delay);
    if run(attempt).Failed? && RateLimited(run(attempt).message) && attempt < MaxRetries - 1 {
      TrainingFrom(userId, run, attempt + 1, delay * 2);
      var rest := Training(userId, run, attempt + 1, delay * 2);
      assert t == TrainingRun(rest.result, [delay] + rest.sleeps);
      if |rest.sleeps| == 0 {
        assert t.sleeps == [delay];
      } else {
        assert rest.sleeps == [2 * delay];
        assert t.sleeps == [delay, 2 * delay];
      }
    } else {
      assert t.sleeps == [];
    }
  }

  /**
   * `create_race_training` makes at most three attempts and sleeps 2 then 4
   * seconds between them; it succeeds exactly when the deciding attempt
   * answers, and every attempt before that one failed with "429" in its
   * message.
   */
  lemma RaceTrainingAttempts(userId: Value, run: nat -> AgentRun)
    ensures var t := Training(userId, run, 0, FirstDelay);
      var k := |t.sleeps|;
      && k < MaxRetries
      && t.sleeps == [2, 4][..k]
      && (forall j | 0 <= j < k :: run(j).Failed? && RateLimited(run(j).message))
      && (t.result.Ok? <==> run(k).Answered?)
      && (run(k).Answered? ==> t.result.value == Shaped("training_schedule", userId, run(k).response))
      && (run(k).Failed? ==> t.result == Err(AttemptFailure(k + 1, run(k).message)))
      && (run(k).Failed? && RateLimited(run(k).message) ==> k == MaxRetries - 1)
  {
    TrainingFrom(userId, run, 0, FirstDelay);
    var t := Training(userId, run, 0, FirstDelay);
    if |t.sleeps| == 2 {
      assert t.sleeps == [2, 4];
    } else if |t.sleeps| == 1 {
      assert t.sleeps == [2];
    }
  }

  /** The raised message names the attempt out of three and carries the original error text. */
  lemma AttemptFailureMeaning(attempt: nat, message: string)
    ensures Text.Contains(AttemptFailure(attempt, message), "(시도 " + Text.IntToString(attempt) + "/3)")
    ensures Text.EndsWith(AttemptFailure(attempt, message), message)
  {
    var s := AttemptFailure(attempt, message);
    var marker := "(시도 " + Text.IntToString(attempt) + "/3)";
    assert Text.IntToString(MaxRetries) == "3";
    assert s == "훈련 일정 생성 실패 " + marker + (": " + message);
    Text.ContainsMiddle("훈련 일정 생성 실패 ", marker, ": " + message);
    assert s[|s| - |message|..] == message;
  }

  /** The shaped result holds the agent's "output" (or "" when there is none), the model name and the user id. */
  lemma ShapedMeaning(key: string, userId: Value, response: Object)
    requires key != "metadata"
    ensures var v := Shaped(key, userId, response);
      && v.JObj? && v.fields.Keys == {key, "metadata"}
      && v.fields[key] == (if "output" in response then response["output"] else JStr(""))
      && v.fields["metadata"].JObj?
      && v.fields["metadata"].fields["model"] == JStr("gemini-2.5-pro-exp-03-25")
      && v.fields["metadata"].fields["user_id"] == userId
  {
  }
}
