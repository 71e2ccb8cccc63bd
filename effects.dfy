/**
 * The two collaborators the request handler changes: the chat backend, which
 * answers a model call (and is observed through the calls it receives), and
 * the audit log, which receives one JSON-lines record per handled request.
 *
 * The backend's replies come from a script indexed by the number of calls
 * made so far, which stands for whatever the model server and the network do;
 * a failure stands for the exception the client raises once its retries are
 * exhausted.
 */
module Effects {
  import opened Common
  import opened Schemas

  datatype ChatCall = ChatCall(model: string, userText: string, systemText: string)

  datatype ChatOutcome =
    | Replied(answer: string, latencyMs: nat, usage: UsageStats)
    | Failed

  class ChatClient {
    const script: (nat, ChatCall) -> ChatOutcome
    var calls: seq<ChatCall>

    constructor(script: (nat, ChatCall) -> ChatOutcome)
      ensures this.script == script && calls == []
    {
      this.script := script;
      calls := [];
    }

    /** `chat(model, user_text, system_text)`: the call is recorded and answered by the script. */
    method Chat(model: string, userText: string, systemText: string) returns (outcome: ChatOutcome)
      modifies this
      ensures calls == old(calls) + [ChatCall(model, userText, systemText)]
      ensures outcome == script(|old(calls)|, ChatCall(model, userText, systemText))
    {
      var call := ChatCall(model, userText, systemText);
      outcome := script(|calls|, call);
      calls := calls + [call];
    }
  }

  /** The fields of one log line (the line's own timestamp is not modelled). */
  datatype AuditRecord =
    | DecisionOnlyRecord(
        requestId: string,
        taskLenChars: nat,
        taskTypeHint: Option<TaskType>,
        riskLevel: RiskLevel,
        decision: RouteDecision,
        latencyMsTotal: int)
    | ExecuteRecord(
        requestId: string,
        executionMode: ExecutionMode,
        taskLenChars: nat,
        taskTypeHint: Option<TaskType>,
        riskLevel: RiskLevel,
        decision: RouteDecision,
        finalModelName: string,
        escalated: bool,
        escalationReason: Option<string>,
        cacheHitFirst: bool,
        cacheHitEscalation: bool,
        latencyMsLlm: int,
        latencyMsTotal: int,
        usage: UsageStats,
        answerLenChars: nat)

  class AuditLog {
    var records: seq<AuditRecord>

    constructor()
      ensures records == []
    {
      records := [];
    }

    /** `write_jsonl(path, record)`: one more line at the end. */
    method Append(record: AuditRecord)
      modifies this
      ensures records == old(records) + [record]
    {
      records := records + [record];
    }
  }
}
