/**
  Per-operator compose sessions: the finite-state context the bot keeps for
  each user (its state and its data dictionary), held in one store keyed by
  user id and changed only through `set_state`, `update_data` and `clear`.
 */
module Session {
  import opened Wrappers

  /** No state, or one of the two states of `AdminState`. */
  datatype Phase = Idle | AwaitingContent | AwaitingConfirmation

  /** The stored draft: the operator's message id and the chat it is in. */
  datatype Draft = Draft(msgId: int, chatId: int)

  /** One user's context: its state and the draft in its data, if any. */
  datatype Context = Context(phase: Phase, draft: Option<Draft>)

  /** The context of a user the store has never seen, and of a cleared one. */
  const FRESH: Context := Context(Idle, None)

  class FsmStorage {
    var contexts: map<int, Context>

    constructor ()
      ensures contexts == map[]
    {
      contexts := map[];
    }

    /** The context of `user`; a missing entry reads as fresh. */
    function Get(user: int): Context
      reads this
    {
      if user in contexts then contexts[user] else FRESH
    }

    /** `set_state`: the state changes, the data is kept. */
    method SetState(user: int, phase: Phase)
      modifies this
      ensures contexts == old(contexts)[user := old(Get(user)).(phase := phase)]
    {
      contexts := contexts[user := Get(user).(phase := phase)];
    }

    /** `update_data(msg_id=…, chat_id=…)`: the draft is replaced, the state kept. */
    method UpdateData(user: int, draft: Draft)
      modifies this
      ensures contexts == old(contexts)[user := old(Get(user)).(draft := Some(draft))]
    {
      contexts := contexts[user := Get(user).(draft := Some(draft))];
    }

    /** `clear`: no state and no data. */
    method Clear(user: int)
      modifies this
      ensures contexts == old(contexts)[user := FRESH]
    {
      contexts := contexts[user := FRESH];
    }

    /** `get_data`, narrowed to the draft. */
    method GetDraft(user: int) returns (draft: Option<Draft>)
      ensures draft == Get(user).draft
      // a corollary of the first clause: a user never seen has no draft
      ensures user !in contexts ==> draft == None
    {
      draft := Get(user).draft;
    }
  }
}
