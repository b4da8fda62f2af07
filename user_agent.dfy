/** The user agent's tools (agent/coordinator/sub_agents/user_agent.py): a callback that records
    the invocation's user in the session state, and two tools that read and write the `metadata`
    field of that user's document in the `users` collection.

    `access` says whether the store raises (and with what message) when the tool reaches it;
    `invocationUserId` is the invocation context's `user_id` attribute (`None` when it has none). */
module UserAgent {
  import opened Wrappers
  import opened Json
  import opened PyHttp
  import opened DocumentStore

  const UserIdKey := "user:id"
  const MetadataField := "metadata"
  const NoUserId := "User ID not available in tool_context."

  /** The session state shared by the callback and the tools. Values under "user:id" are the user
      IDs the callback copies from the invocation, which are strings. */
  class Session {
    var state: map<string, string>

    constructor (state: map<string, string>)
      ensures this.state == state
    {
      this.state := state;
    }

    /** `check_if_agent_should_run`: records the invocation's user; the agent always runs. */
    method CheckIfAgentShouldRun(invocationUserId: string)
      modifies this
      ensures state == old(state)[UserIdKey := invocationUserId]
    {
      state := state[UserIdKey := invocationUserId];
    }
  }

  /** Whether the store can be reached, or raises with a message. */
  datatype StoreAccess = Available | Raises(message: string)

  /** The dictionary a tool returns: `status`, `user_id` (`None` as `None`), the data (under
      "metadata" or "updated_metadata") and the optional `message`. */
  datatype ToolResult = ToolResult(status: string, userId: Option<string>, data: Json, message: Option<string>)

  /** What a tool returns when something raised: the invocation's user ID (or "Unknown"), no data,
      and the exception's message. */
  function ErrorResult(invocationUserId: Option<string>, message: string): ToolResult {
    ToolResult("error", Some(invocationUserId.GetOr("Unknown")), Null, Some(message))
  }

  /** What a tool returns when the state names no user. */
  const NoUserResult := ToolResult("error", None, Null, Some(NoUserId))

  /** The user the tools act for: the truthy value under "user:id". */
  function StateUser(state: map<string, string>): (r: Option<string>)
    ensures r.Some? <==> UserIdKey in state && state[UserIdKey] != ""
    ensures r.Some? ==> r.value == state[UserIdKey]
  {
    if Given(Lookup(state, UserIdKey)) then Some(state[UserIdKey]) else None
  }

  /** `get_user_profile_metadata`. */
  function GetUserProfileMetadata(docs: map<string, Doc>, state: map<string, string>, access: StoreAccess,
                                  invocationUserId: Option<string>): (r: ToolResult)
    ensures StateUser(state).None? ==> r == NoUserResult
    ensures StateUser(state).Some? && access.Raises? ==> r == ErrorResult(invocationUserId, access.message)
    // Success exactly when the user's document holds a metadata value that is not null, and then
    // the result is that value.
    ensures r.status == "success" <==>
              StateUser(state).Some? && access.Available? && StateUser(state).value in docs &&
              PyGet(docs[StateUser(state).value], MetadataField) != Null
    ensures r.status == "success" ==>
              r == ToolResult("success", StateUser(state), docs[StateUser(state).value][MetadataField], None)
    ensures r.status in {"success", "not_found", "error"}
    ensures r.status == "not_found" ==> r.data == Null && r.message.Some? && r.userId == StateUser(state)
  {
    match StateUser(state)
    case None => NoUserResult
    case Some(id) =>
      if access.Raises? then ErrorResult(invocationUserId, access.message)
      else if id in docs then
        var metadata := PyGet(docs[id], MetadataField);
        if metadata != Null then ToolResult("success", Some(id), metadata, None)
        else ToolResult("not_found", Some(id), Null, Some("User '" + id + "' found, but 'metadata' field is missing or null."))
      else ToolResult("not_found", Some(id), Null, Some("User with ID '" + id + "' not found."))
  }

  /** The result of `modify_user_profile_metadata` once the write is made. */
  function Modified(id: string, newMetadata: Json): ToolResult {
    ToolResult("success", Some(id), newMetadata, Some("Metadata for user '" + id + "' updated successfully."))
  }

  /** `modify_user_profile_metadata` as written: `set({"metadata": new}, merge=True)` merges a
      non-empty map into the stored metadata key by key, so keys the new metadata leaves out
      survive, although the tool promises to overwrite the field and reports `new` as the result. */
  function ModifyOutcomeAsWritten(docs: map<string, Doc>, state: map<string, string>, newMetadata: Json,
                                  access: StoreAccess, invocationUserId: Option<string>): (r: (ToolResult, map<string, Doc>))
    ensures r.0.status == "success" ==>
              StateUser(state).Some? &&
              var id := StateUser(state).value;
              r.1 == docs[id := SetMerge(if id in docs then Some(docs[id]) else None, map[MetadataField := Put(newMetadata)], "")]
  {
    match StateUser(state)
    case None => (NoUserResult, docs)
    case Some(id) =>
      if access.Raises? then (ErrorResult(invocationUserId, access.message), docs)
      else
        var prev := if id in docs then Some(docs[id]) else None;
        (Modified(id, newMetadata), docs[id := SetMerge(prev, map[MetadataField := Put(newMetadata)], "")])
  }

  /** A stored key the new metadata leaves out is still there after the tool reports success. */
  lemma MergeKeepsDroppedKeys()
    ensures var docs := map["u1" := map[MetadataField := Obj(map["city" := Str("Paris")])]];
            var newMetadata := Obj(map["language" := Str("fr")]);
            var r := ModifyOutcomeAsWritten(docs, map[UserIdKey := "u1"], newMetadata, Available, None);
            r.0.data == newMetadata && r.1["u1"][MetadataField] != newMetadata &&
            "city" in r.1["u1"][MetadataField].fields
  {
    var docs := map["u1" := map[MetadataField := Obj(map["city" := Str("Paris")])]];
    var newMetadata := Obj(map["language" := Str("fr")]);
    assert StateUser(map[UserIdKey := "u1"]) == Some("u1");
    var writes := map[MetadataField := Put(newMetadata)];
    var stored := SetMerge(Some(docs["u1"]), writes, "");
    var kept := map k | k in docs["u1"] && !(k in writes && writes[k].DeleteField?) :: docs["u1"][k];
    var data := map k | k in writes && !writes[k].DeleteField? :: Resolve(writes[k], "");
    assert kept == docs["u1"];
    assert data == map[MetadataField := newMetadata];
    assert "language" in newMetadata.fields;
    assert MergesInto(newMetadata);
    var merged := DeepMerge(map["city" := Str("Paris")], map["language" := Str("fr")]);
    assert stored[MetadataField] == Obj(merged);
    assert "city" in merged;
  }

  /** `modify_user_profile_metadata` as intended, writing with `merge=["metadata"]`: the user's
      document gets exactly `newMetadata` as its metadata (created if needed); nothing else in the
      store changes. */
  function ModifyOutcome(docs: map<string, Doc>, state: map<string, string>, newMetadata: Json,
                         access: StoreAccess, invocationUserId: Option<string>): (r: (ToolResult, map<string, Doc>))
    ensures StateUser(state).None? ==> r == (NoUserResult, docs)
    ensures StateUser(state).Some? && access.Raises? ==>
              r == (ErrorResult(invocationUserId, access.message), docs)
    ensures StateUser(state).Some? && access.Available? ==>
              var id := StateUser(state).value;
              r.0 == Modified(id, newMetadata) && r.1.Keys == docs.Keys + {id} &&
              id in r.1 && MetadataField in r.1[id] && r.1[id][MetadataField] == newMetadata &&
              (forall k :: k in r.1[id] && k != MetadataField ==> id in docs && k in docs[id] && r.1[id][k] == docs[id][k]) &&
              (forall k :: id in docs && k in docs[id] ==> k in r.1[id]) &&
              (forall other :: other in docs && other != id ==> r.1[other] == docs[other])
  {
    match StateUser(state)
    case None => (NoUserResult, docs)
    case Some(id) =>
      if access.Raises? then (ErrorResult(invocationUserId, access.message), docs)
      else
        var prev := if id in docs then docs[id] else map[];
        (Modified(id, newMetadata), docs[id := Updated(prev, map[MetadataField := Put(newMetadata)], "")])
  }

  /** The modify tool, over the collection. */
  method ModifyUserProfileMetadata(users: Collection, session: Session, newMetadata: Json, access: StoreAccess,
                                   invocationUserId: Option<string>) returns (r: ToolResult)
    modifies users
    ensures (r, users.docs) == ModifyOutcome(old(users.docs), session.state, newMetadata, access, invocationUserId)
  {
    var id := StateUser(session.state);
    if id.None? {
      return NoUserResult;
    }
    if access.Raises? {
      return ErrorResult(invocationUserId, access.message);
    }
    users.SetFields(id.value, map[MetadataField := Put(newMetadata)], "");
    r := Modified(id.value, newMetadata);
  }

  /** After the modify tool succeeds, the get tool returns what was written (or reports it
      missing when `null` was written). */
  lemma ModifyThenGet(docs: map<string, Doc>, state: map<string, string>, newMetadata: Json, invocationUserId: Option<string>)
    requires StateUser(state).Some?
    ensures var after := ModifyOutcome(docs, state, newMetadata, Available, invocationUserId).1;
            var got := GetUserProfileMetadata(after, state, Available, invocationUserId);
            (newMetadata != Null ==> got.status == "success" && got.data == newMetadata) &&
            (newMetadata == Null ==> got.status == "not_found")
  {
    var id := StateUser(state).value;
    var after := ModifyOutcome(docs, state, newMetadata, Available, invocationUserId).1;
    assert after[id][MetadataField] == newMetadata;
  }
}
