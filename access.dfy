/**
  The static operator allow-list and the parsing of inline-button data:
  which identities may use the admin panel, and which action an
  `admin_<action>` button names.
 */
module Access {
  import opened Wrappers
  import opened Text

  /** The process-wide allow-list of operator identities. */
  const ADMIN_IDS: seq<int> := [123456789, 987654321, 1122334455]

  /** Allow-list membership, the test made before every privileged step. */
  predicate IsAdmin(id: int) {
    id in ADMIN_IDS
  }

  /** The prefix that routes a button press to the admin-panel handler. */
  const ADMIN_PREFIX: string := "admin_"

  /** Data of the buttons the bot itself builds. */
  const BROADCAST_DATA: string := "admin_broadcast"
  const EXPORT_DATA: string := "admin_export"
  const REFRESH_DATA: string := "admin_refresh"
  const CONFIRM_DATA: string := "confirm_send"
  const CANCEL_DATA: string := "cancel_send"

  /** `data.split("_")[1]`; `None` stands for the IndexError raised when
      the data holds no underscore at all. */
  function ActionOf(data: string): (action: Option<string>)
    ensures action.Some? <==> '_' in data
    ensures action.Some? ==> '_' !in action.value
  {
    var parts := Split(data, '_');
    if |parts| >= 2 then Some(parts[1]) else None
  }

  /** For data routed to the admin handler the action is the text between
      the prefix and the next underscore (or the end), so indexing never
      raises there. */
  lemma ActionAfterPrefix(data: string)
    requires StartsWith(data, ADMIN_PREFIX)
    ensures ActionOf(data) == Some(Split(data[|ADMIN_PREFIX|..], '_')[0])
  {
    var rest := data[|ADMIN_PREFIX|..];
    assert data == "admin" + ['_'] + rest;
    SplitAtSep("admin", '_', rest);
  }

  /** An action without underscores is recovered exactly from its button data,
      and so is the leading word of one with further underscores. */
  lemma ActionOfButton(action: string, suffix: string)
    requires '_' !in action
    ensures ActionOf(ADMIN_PREFIX + action) == Some(action)
    ensures ActionOf(ADMIN_PREFIX + action + ['_'] + suffix) == Some(action)
  {
    var data := ADMIN_PREFIX + action;
    assert StartsWith(data, ADMIN_PREFIX) && data[|ADMIN_PREFIX|..] == action;
    ActionAfterPrefix(data);
    SplitWithoutSep(action, '_');
    var longer := ADMIN_PREFIX + action + ['_'] + suffix;
    assert StartsWith(longer, ADMIN_PREFIX) && longer[|ADMIN_PREFIX|..] == action + ['_'] + suffix;
    ActionAfterPrefix(longer);
    SplitAtSep(action, '_', suffix);
  }

  /** A lower-case action word is recovered from its `admin_` button data;
      this covers the panel's three buttons. */
  lemma ButtonAction(data: string, action: string)
    requires data == ADMIN_PREFIX + action
    requires forall i :: 0 <= i < |action| ==> 'a' <= action[i] <= 'z'
    ensures ActionOf(data) == Some(action)
  {
    assert '_' !in action by {
      forall i | 0 <= i < |action| ensures action[i] != '_' { }
    }
    ActionOfButton(action, "");
  }

  /** The confirm and cancel buttons are never routed to the admin handler. */
  lemma ConfirmButtonsNotAdmin()
    ensures !StartsWith(CONFIRM_DATA, ADMIN_PREFIX) && !StartsWith(CANCEL_DATA, ADMIN_PREFIX)
  {
    assert CONFIRM_DATA[0] != ADMIN_PREFIX[0];
    assert CANCEL_DATA[1] != ADMIN_PREFIX[1];
  }
}
