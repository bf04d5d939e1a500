/**
  The record transformer of stitch_api/stitch_api.py: every raw record of a
  page becomes one flat "upsert" envelope for the destination's push API.
  Each parser's `data` dictionary literal is a table from output key to the
  source path it is read from; tasks and contacts name nested fields with
  underscores, customers with dots, and only customers flatten their
  custom fields into the envelope.
 */
module StitchApi {
  import opened Json

  /** The entity types the source API serves and the transformer knows. */
  datatype Entity = Contacts | Customers | Nps | Tasks

  /** The entity's name: the table name of its envelopes, the path segment
      of its source endpoint and the key of its rows in a page. */
  function Name(e: Entity): string {
    match e
    case Contacts => "contacts"
    case Customers => "customers"
    case Nps => "nps"
    case Tasks => "tasks"
  }

  /** The `match entity_name` of paser_entity_data_to_stitch_standard: the
      entity whose parser handles `name`, or None when no case matches. */
  function EntityNamed(name: string): (r: Option<Entity>)
    ensures r.Some? ==> Name(r.value) == name
    ensures r.None? <==> forall e: Entity :: Name(e) != name
  {
    match name
    case "nps" => Some(Nps)
    case "customers" => Some(Customers)
    case "contacts" => Some(Contacts)
    case "tasks" => Some(Tasks)
    case _ => None
  }

  /** Dispatching on an entity's own name selects that entity. */
  lemma NamedEntity(e: Entity)
    ensures EntityNamed(Name(e)) == Some(e)
  {
  }

  /** One record as the destination's push API takes it. */
  datatype Envelope = Envelope(
    clientId: string,
    action: string,
    sequence: int,
    tableName: string,
    data: map<string, Json>,
    keyNames: seq<string>)

  /** The fixed part every parser writes around its `data` map. */
  function Upsert(clientId: string, stamp: int, table: string, data: map<string, Json>): Envelope {
    Envelope(clientId, "upsert", stamp, table, data, ["id"])
  }

  /** One `"name": row[p0][p1]...` entry of a `data` dictionary literal. */
  datatype Column = Column(name: string, path: Path)

  /** The keys a dictionary literal writes. */
  function Names(columns: seq<Column>): set<string> {
    set c | c in columns :: c.name
  }

  /** Evaluating a `data` dictionary literal whose values are subscripts of
      the row, entry by entry from the left: it fails as soon as one
      subscript fails, and a later entry with the same key wins. */
  function Project(row: Json, columns: seq<Column>): (r: Result<map<string, Json>>)
    ensures r.Failure? ==> r.fault == LookupFailed
    decreases |columns|
  {
    if columns == [] then Success(map[])
    else
      var n := |columns| - 1;
      var data :- Project(row, columns[..n]);
      var value :- Resolve(row, columns[n].path);
      Success(data[columns[n].name := value])
  }

  // ---------------------------------------------------------------------
  // The per-entity dictionary literals

  /** `data` of _parse_contact_to_stitch_standard before the `types` rule,
      entry by entry in source order (lines 45-66). */
  const ContactFields: seq<Column> :=
    ContactKeyFields + ContactCustomerFields + ContactPersonFields

  /** Its identifiers (lines 45-46). */
  const ContactKeyFields: seq<Column> := [
    Column("id", ["id"]),
    Column("id_legacy", ["id_legacy"])
  ]

  /** Its customer's fields (lines 47-52). */
  const ContactCustomerFields: seq<Column> := [
    Column("customer_id", ["customer", "id"]),
    Column("customer_id_legacy", ["customer", "id_legacy"]),
    Column("customer_group", ["customer", "group"]),
    Column("customer_name_contract", ["customer", "name_contract"]),
    Column("customer_name", ["customer", "name"]),
    Column("customer_cnpj", ["customer", "cnpj"])
  ]

  /** The contact person's own fields (lines 53-66). */
  const ContactPersonFields: seq<Column> := [
    Column("is_main_sponsor", ["is_main_sponsor"]),
    Column("is_active", ["is_active"]),
    Column("name", ["name"]),
    Column("nickname", ["nickname"]),
    Column("email", ["email"]),
    Column("occupation", ["occupation"]),
    Column("phone", ["phone"]),
    Column("phone2", ["phone2"]),
    Column("address", ["address"]),
    Column("skype", ["skype"]),
    Column("email_unsubscribe", ["email_unsubscribe"]),
    Column("unsubscribe_reason", ["unsubscribe_reason"]),
    Column("is_favorite", ["is_favorite"]),
    Column("obs_info", ["obs_info"])
  ]

  /** `data` of _parse_customer_to_stitch_standard before the custom
      fields, entry by entry in source order (lines 90-134). */
  const CustomerFields: seq<Column> :=
    CustomerRecordFields + CustomerStatusFields + CustomerCsFields + CustomerCsmFields

  /** Its top-level fields (lines 90-111). */
  const CustomerRecordFields: seq<Column> := [
    Column("id", ["id"]),
    Column("id_legacy", ["id_legacy"]),
    Column("group", ["group"]),
    Column("name_contract", ["name_contract"]),
    Column("name", ["name"]),
    Column("cnpj", ["cnpj"]),
    Column("state", ["state"]),
    Column("city", ["city"]),
    Column("size", ["size"]),
    Column("stage", ["stage"]),
    Column("dt_stage", ["dt_stage"]),
    Column("dt_register", ["dt_register"]),
    Column("industry", ["industry"]),
    Column("salesperson", ["salesperson"]),
    Column("sponsor", ["sponsor"]),
    Column("sponsor_phone", ["sponsor_phone"]),
    Column("sponsor_email", ["sponsor_email"]),
    Column("dt_cancel", ["dt_cancel"]),
    Column("cancel_tag", ["cancel_tag"]),
    Column("cancel_description", ["cancel_description"]),
    Column("created_at", ["created_at"]),
    Column("updated_at", ["updated_at"])
  ]

  /** Its status, with dotted names (lines 112-114). */
  const CustomerStatusFields: seq<Column> := [
    Column("status.id", ["status", "id"]),
    Column("status.description", ["status", "description"]),
    Column("status.enabled", ["status", "enabled"])
  ]

  /** Its CS, with dotted names (lines 115-124). */
  const CustomerCsFields: seq<Column> := [
    Column("cs.id", ["cs", "id"]),
    Column("cs.name", ["cs", "name"]),
    Column("cs.username", ["cs", "username"]),
    Column("cs.email", ["cs", "email"]),
    Column("cs.profile.name", ["cs", "profile", "name"]),
    Column("cs.profile.role", ["cs", "profile", "role"]),
    Column("cs.active", ["cs", "active"]),
    Column("cs.registered_on", ["cs", "registered_on"]),
    Column("cs.created_at", ["cs", "created_at"]),
    Column("cs.updated_at", ["cs", "updated_at"])
  ]

  /** Its CSM, with dotted names (lines 125-134). */
  const CustomerCsmFields: seq<Column> := [
    Column("csm.id", ["csm", "id"]),
    Column("csm.name", ["csm", "name"]),
    Column("csm.username", ["csm", "username"]),
    Column("csm.email", ["csm", "email"]),
    Column("csm.profile.name", ["csm", "profile", "name"]),
    Column("csm.profile.role", ["csm", "profile", "role"]),
    Column("csm.active", ["csm", "active"]),
    Column("csm.registered_on", ["csm", "registered_on"]),
    Column("csm.created_at", ["csm", "created_at"]),
    Column("csm.updated_at", ["csm", "updated_at"])
  ]

  /** `data` of _parse_nps_to_stitch_standard, entry by entry in source
      order (lines 153-169). */
  const NpsFields: seq<Column> := [
    Column("id", ["id"]),
    Column("id_legacy", ["id_legacy"]),
    Column("id_customer", ["id_customer"]),
    Column("ref_date", ["ref_date"]),
    Column("survey_date", ["survey_date"]),
    Column("medium", ["medium"]),
    Column("respondent", ["respondent"]),
    Column("score", ["score"]),
    Column("role", ["role"]),
    Column("stage", ["stage"]),
    Column("group", ["group"]),
    Column("category", ["category"]),
    Column("nps_status", ["nps_status"]),
    Column("comments", ["comments"]),
    Column("tags", ["tags"]),
    Column("created_at", ["created_at"]),
    Column("updated_at", ["updated_at"])
  ]

  /** `data` of _parse_tasks_to_stitch_standard, entry by entry in source
      order (lines 186-236). */
  const TaskFields: seq<Column> :=
    TaskRecordFields + TaskTypeFields + TaskStatusFields + TaskPriorityFields + TaskOwnerFields + TaskCreatorFields + TaskTrailingFields

  /** Its leading top-level fields (lines 186-196). */
  const TaskRecordFields: seq<Column> := [
    Column("id", ["id"]),
    Column("id_legacy", ["id_legacy"]),
    Column("id_customer", ["id_customer"]),
    Column("id_parent", ["id_parent"]),
    Column("id_contact", ["id_contact"]),
    Column("group", ["group"]),
    Column("description", ["description"]),
    Column("notes", ["notes"]),
    Column("start_date", ["start_date"]),
    Column("due_date", ["due_date"]),
    Column("end_date", ["end_date"])
  ]

  /** Its type, with underscore names (lines 197-201). */
  const TaskTypeFields: seq<Column> := [
    Column("type_id", ["type", "id"]),
    Column("type_description", ["type", "description"]),
    Column("type_caption", ["type", "caption"]),
    Column("type_enabled", ["type", "enabled"]),
    Column("type_is_default", ["type", "is_default"])
  ]

  /** Its status, with underscore names (lines 202-203). */
  const TaskStatusFields: seq<Column> := [
    Column("status_id", ["status", "id"]),
    Column("status_description", ["status", "description"])
  ]

  /** Its priority, with underscore names (lines 204-205). */
  const TaskPriorityFields: seq<Column> := [
    Column("priority_id", ["priority", "id"]),
    Column("priority_description", ["priority", "description"])
  ]

  /** Its owner, with underscore names (lines 206-215). */
  const TaskOwnerFields: seq<Column> := [
    Column("owner_id", ["owner", "id"]),
    Column("owner_name", ["owner", "name"]),
    Column("owner_username", ["owner", "username"]),
    Column("owner_email", ["owner", "email"]),
    Column("owner_profile_name", ["owner", "profile", "name"]),
    Column("owner_profile_role", ["owner", "profile", "role"]),
    Column("owner_active", ["owner", "active"]),
    Column("owner_registered_on", ["owner", "registered_on"]),
    Column("owner_created_at", ["owner", "created_at"]),
    Column("owner_updated_at", ["owner", "updated_at"])
  ]

  /** Its creator, with underscore names (lines 216-225). */
  const TaskCreatorFields: seq<Column> := [
    Column("created_by_id", ["created_by", "id"]),
    Column("created_by_name", ["created_by", "name"]),
    Column("created_by_username", ["created_by", "username"]),
    Column("created_by_email", ["created_by", "email"]),
    Column("created_by_profile_name", ["created_by", "profile", "name"]),
    Column("created_by_profile_role", ["created_by", "profile", "role"]),
    Column("created_by_active", ["created_by", "active"]),
    Column("created_by_registered_on", ["created_by", "registered_on"]),
    Column("created_by_created_at", ["created_by", "created_at"]),
    Column("created_by_updated_at", ["created_by", "updated_at"])
  ]

  /** Its trailing top-level fields (lines 226-236). */
  const TaskTrailingFields: seq<Column> := [
    Column("hours_spent", ["hours_spent"]),
    Column("hours_planned", ["hours_planned"]),
    Column("progress", ["progress"]),
    Column("id_playbook", ["id_playbook"]),
    Column("id_rule", ["id_rule"]),
    Column("tags", ["tags"]),
    Column("created_at", ["created_at"]),
    Column("system_end_date", ["system_end_date"]),
    Column("updated_at", ["updated_at"]),
    Column("custom_value", ["custom_value"]),
    Column("favorite", ["favorite"])
  ]

  // ---------------------------------------------------------------------
  // One record

  /** The `types` rule of the contact parser (lines 74-76): when
      `row['types']` is truthy, `types_id` and `types_name` are copied from
      its first element into `data`; otherwise `data` stays as it is. */
  function TypesRule(data: map<string, Json>, row: Json): (r: Result<map<string, Json>>)
    ensures Get(row, "types").Failure? ==> r.Failure?
    ensures Get(row, "types").Success? && !Truthy(row.fields["types"]) ==> r == Success(data)
    ensures Get(row, "types").Success? && Truthy(row.fields["types"]) ==>
      var types := row.fields["types"];
      if Head(types).Success?
         && Get(Head(types).value, "id").Success? && Get(Head(types).value, "name").Success?
      then
        && r.Success?
        && r.value.Keys == data.Keys + {"types_id", "types_name"}
        && r.value["types_id"] == types.items[0].fields["id"]
        && r.value["types_name"] == types.items[0].fields["name"]
        && forall k | k in data && k != "types_id" && k != "types_name" :: r.value[k] == data[k]
      else
        r.Failure?
  {
    var types :- Get(row, "types");
    if Truthy(types) then
      var first :- Head(types);
      var id :- Get(first, "id");
      var name :- Get(first, "name");
      Success(data["types_id" := id]["types_name" := name])
    else
      Success(data)
  }

  /** The envelope of one contact (lines 39-76). */
  function ContactEnvelope(clientId: string, stamp: int, row: Json): (r: Result<Envelope>)
    ensures r.Success? ==> IsUpsert(r.value, clientId, stamp, "contacts")
    ensures r.Failure? ==> r.fault == LookupFailed
  {
    var data :- Project(row, ContactFields);
    var data' :- TypesRule(data, row);
    Success(Upsert(clientId, stamp, "contacts", data'))
  }

  /** The prefix of the keys the custom fields get in `data`. */
  const CustomPrefix := "custom_fields_"

  /** The key a custom field `name` gets in `data`. */
  function CustomKey(name: string): string {
    CustomPrefix + name
  }

  /** A custom field entry `{"value": ...}` as the flattener reads it. */
  predicate HasValue(entry: Json) {
    Get(entry, "value").Success?
  }

  /** `entry['value']`. */
  function ValueOf(entry: Json): Json
    requires HasValue(entry)
  {
    entry.fields["value"]
  }

  /** The keys the custom fields `names` get in `data`. */
  function CustomKeys(names: set<string>): set<string> {
    set name | name in names :: CustomKey(name)
  }

  /** The custom field behind a key of CustomKeys. */
  function FieldOf(key: string): string
    requires |key| >= |CustomPrefix|
  {
    key[|CustomPrefix|..]
  }

  lemma FieldOfCustomKey(name: string)
    ensures |CustomKey(name)| >= |CustomPrefix| && FieldOf(CustomKey(name)) == name
  {
    assert CustomKey(name)[|CustomPrefix|..] == name;
  }

  lemma InCustomKeys(names: set<string>, key: string)
    requires key in CustomKeys(names)
    ensures |key| >= |CustomPrefix| && FieldOf(key) in names && key == CustomKey(FieldOf(key))
  {
    var name :| name in names && CustomKey(name) == key;
    FieldOfCustomKey(name);
  }

  /** The `custom_fields_<name>` columns contributed by the custom fields
      `names` of `fields`. */
  function CustomColumns(fields: map<string, Json>, names: set<string>): map<string, Json>
    requires names <= fields.Keys
    requires forall k | k in names :: HasValue(fields[k])
  {
    map key | key in CustomKeys(names) :: InCustomKeys(names, key); ValueOf(fields[FieldOf(key)])
  }

  /** Adding one more custom field to those already flattened adds its
      column and nothing else. */
  lemma CustomColumnsAdd(fields: map<string, Json>, done: set<string>, k: string)
    requires done <= fields.Keys && k in fields && k !in done
    requires forall n | n in done + {k} :: HasValue(fields[n])
    ensures CustomColumns(fields, done + {k}) == CustomColumns(fields, done)[CustomKey(k) := ValueOf(fields[k])]
  {
    FieldOfCustomKey(k);
    assert CustomKeys(done + {k}) == CustomKeys(done) + {CustomKey(k)};
  }

  /** Writing a key into a merged map writes it into the right-hand map. */
  lemma MergeUpdate(a: map<string, Json>, b: map<string, Json>, k: string, v: Json)
    ensures a + b[k := v] == (a + b)[k := v]
  {
  }

  /** The custom fields `for field in row['custom_fields']` walks, each with
      its entry. */
  function CustomFieldsOf(row: Json): Result<map<string, Json>> {
    var customFields :- Get(row, "custom_fields");
    Members(customFields)
  }

  /** _parse_custom_fields as a function of the envelope it updates: one
      `custom_fields_<name>` entry per key of `row['custom_fields']`, valued
      `row['custom_fields'][name]['value']`. */
  function FlattenCustomFields(obj: Envelope, row: Json): Result<Envelope> {
    var fields :- CustomFieldsOf(row);
    if forall k | k in fields :: HasValue(fields[k]) then
      Success(obj.(data := obj.data + CustomColumns(fields, fields.Keys)))
    else
      Failure(LookupFailed)
  }

  /** The envelope of one customer (lines 84-140). */
  function CustomerEnvelope(clientId: string, stamp: int, row: Json): (r: Result<Envelope>)
    ensures r.Success? ==> IsUpsert(r.value, clientId, stamp, "customers")
    ensures r.Failure? ==> r.fault == LookupFailed
  {
    var data :- Project(row, CustomerFields);
    FlattenCustomFields(Upsert(clientId, stamp, "customers", data), row)
  }

  /** The envelope of one NPS survey answer (lines 147-174). */
  function NpsEnvelope(clientId: string, stamp: int, row: Json): (r: Result<Envelope>)
    ensures r.Success? ==> IsUpsert(r.value, clientId, stamp, "nps")
    ensures r.Failure? ==> r.fault == LookupFailed
  {
    var data :- Project(row, NpsFields);
    Success(Upsert(clientId, stamp, "nps", data))
  }

  /** The envelope of one task (lines 180-241). */
  function TaskEnvelope(clientId: string, stamp: int, row: Json): (r: Result<Envelope>)
    ensures r.Success? ==> IsUpsert(r.value, clientId, stamp, "tasks")
    ensures r.Failure? ==> r.fault == LookupFailed
  {
    var data :- Project(row, TaskFields);
    Success(Upsert(clientId, stamp, "tasks", data))
  }

  /** Builds the envelope of one row from the client id and the clock
      reading taken for it. */
  type RowParser = (string, int, Json) -> Result<Envelope>

  /** The per-row part of the parser of `e`. */
  function ParserOf(e: Entity): RowParser {
    match e
    case Contacts => ContactEnvelope
    case Customers => CustomerEnvelope
    case Nps => NpsEnvelope
    case Tasks => TaskEnvelope
  }

  /** The fixed fields every parser writes: an upsert keyed by `id` into
      `table`, carrying the configured client id and the row's clock
      reading as its sequence number. */
  predicate IsUpsert(env: Envelope, clientId: string, stamp: int, table: string) {
    && env.clientId == clientId
    && env.action == "upsert"
    && env.sequence == stamp
    && env.tableName == table
    && env.keyNames == ["id"]
  }

  /** Every envelope a parser builds is an upsert into the entity's own
      table, and a row a parser cannot handle fails with a lookup fault. */
  lemma EnvelopeHeader(e: Entity, clientId: string, stamp: int, row: Json)
    ensures ParserOf(e)(clientId, stamp, row).Success? ==>
      IsUpsert(ParserOf(e)(clientId, stamp, row).value, clientId, stamp, Name(e))
    ensures ParserOf(e)(clientId, stamp, row).Failure? ==>
      ParserOf(e)(clientId, stamp, row).fault == LookupFailed
  {
    match e
    case Contacts =>
    case Customers =>
    case Nps =>
    case Tasks =>
  }

  // ---------------------------------------------------------------------
  // A batch

  /** What a parser returns for a page of rows: the envelopes of the rows
      appended one by one in row order, or a failure as soon as a row fails
      (the exception leaves the loop, so no partial list is returned).
      `stamps[j]` is the clock reading taken for row `j`. */
  function Batch(parse: RowParser, clientId: string, rows: seq<Json>, stamps: seq<int>): (r: Result<seq<Envelope>>)
    requires |stamps| == |rows|
    ensures r.Success? ==> |r.value| == |rows|
    decreases |rows|
  {
    if rows == [] then Success([])
    else
      var n := |rows| - 1;
      var init :- Batch(parse, clientId, rows[..n], stamps[..n]);
      var last :- parse(clientId, stamps[n], rows[n]);
      Success(init + [last])
  }

  /** The loop step of every parser: a batch whose prefix is done grows by
      the next row's envelope. */
  lemma BatchAppend(parse: RowParser, clientId: string, rows: seq<Json>, stamps: seq<int>, i: nat)
    requires |stamps| == |rows| && i < |rows|
    requires Batch(parse, clientId, rows[..i], stamps[..i]).Success?
    requires parse(clientId, stamps[i], rows[i]).Success?
    ensures Batch(parse, clientId, rows[..i + 1], stamps[..i + 1]) ==
      Success(Batch(parse, clientId, rows[..i], stamps[..i]).value + [parse(clientId, stamps[i], rows[i]).value])
  {
    assert rows[..i + 1][..i] == rows[..i] && stamps[..i + 1][..i] == stamps[..i];
  }

  /** A batch that failed on a prefix of the rows fails with the same fault
      on all of them. */
  lemma {:induction false} BatchFailsFromPrefix(parse: RowParser, clientId: string, rows: seq<Json>, stamps: seq<int>, i: nat, f: Fault)
    requires |stamps| == |rows| && i <= |rows|
    requires Batch(parse, clientId, rows[..i], stamps[..i]) == Failure(f)
    ensures Batch(parse, clientId, rows, stamps) == Failure(f)
    decreases |rows| - i
  {
    if i < |rows| {
      var n := |rows| - 1;
      assert rows[..n][..i] == rows[..i] && stamps[..n][..i] == stamps[..i];
      BatchFailsFromPrefix(parse, clientId, rows[..n], stamps[..n], i, f);
    } else {
      assert rows[..i] == rows && stamps[..i] == stamps;
    }
  }

  /** The first row whose envelope fails fails the whole batch with its
      fault. */
  lemma BatchFailsAtRow(parse: RowParser, clientId: string, rows: seq<Json>, stamps: seq<int>, i: nat)
    requires |stamps| == |rows| && i < |rows|
    requires Batch(parse, clientId, rows[..i], stamps[..i]).Success?
    requires parse(clientId, stamps[i], rows[i]).Failure?
    ensures Batch(parse, clientId, rows, stamps) == Failure(parse(clientId, stamps[i], rows[i]).fault)
  {
    assert rows[..i + 1][..i] == rows[..i] && stamps[..i + 1][..i] == stamps[..i];
    BatchFailsFromPrefix(parse, clientId, rows, stamps, i + 1, parse(clientId, stamps[i], rows[i]).fault);
  }

  /** A batch succeeds exactly when every row's envelope does, and then
      holds one envelope per row, in row order; otherwise it fails with the
      fault of the first row that fails. */
  lemma {:induction false} BatchRows(parse: RowParser, clientId: string, rows: seq<Json>, stamps: seq<int>)
    requires |stamps| == |rows|
    ensures Batch(parse, clientId, rows, stamps).Success? <==>
      forall j | 0 <= j < |rows| :: parse(clientId, stamps[j], rows[j]).Success?
    ensures Batch(parse, clientId, rows, stamps).Success? ==>
      && |Batch(parse, clientId, rows, stamps).value| == |rows|
      && forall j | 0 <= j < |rows| ::
           Batch(parse, clientId, rows, stamps).value[j] == parse(clientId, stamps[j], rows[j]).value
    ensures Batch(parse, clientId, rows, stamps).Failure? ==>
      exists j | 0 <= j < |rows| ::
        && parse(clientId, stamps[j], rows[j]) == Failure(Batch(parse, clientId, rows, stamps).fault)
        && forall k | 0 <= k < j :: parse(clientId, stamps[k], rows[k]).Success?
    decreases |rows|
  {
    if rows != [] {
      var n := |rows| - 1;
      BatchRows(parse, clientId, rows[..n], stamps[..n]);
      assert forall j | 0 <= j < n :: rows[..n][j] == rows[j] && stamps[..n][j] == stamps[j];
    }
  }

  /** Every envelope of a successful batch of `e` is an upsert into the
      table named after `e`, stamped with its own row's clock reading. */
  lemma BatchHeaders(e: Entity, clientId: string, rows: seq<Json>, stamps: seq<int>)
    requires |stamps| == |rows|
    requires Batch(ParserOf(e), clientId, rows, stamps).Success?
    ensures forall j | 0 <= j < |rows| ::
      IsUpsert(Batch(ParserOf(e), clientId, rows, stamps).value[j], clientId, stamps[j], Name(e))
  {
    BatchRows(ParserOf(e), clientId, rows, stamps);
    forall j | 0 <= j < |rows|
      ensures IsUpsert(Batch(ParserOf(e), clientId, rows, stamps).value[j], clientId, stamps[j], Name(e))
    {
      EnvelopeHeader(e, clientId, stamps[j], rows[j]);
    }
  }


  /** _parse_custom_fields (lines 245-248): the loop over the custom fields
      writes one entry into the envelope's `data` per field. */
  method ParseCustomFields(obj: Envelope, row: Json) returns (r: Result<Envelope>)
    ensures r == FlattenCustomFields(obj, row)
  {
    var customFields :- Get(row, "custom_fields");
    var fields :- Members(customFields);
    var data := obj.data;
    var pending := fields.Keys;
    ghost var done: set<string> := {};
    while pending != {}
      invariant done !! pending && done + pending == fields.Keys
      invariant forall k | k in done :: HasValue(fields[k])
      invariant data == obj.data + CustomColumns(fields, done)
      decreases pending
    {
      var field :| field in pending;
      var entry := Get(fields[field], "value");
      if entry.Failure? {
        return Failure(entry.fault);
      }
      CustomColumnsAdd(fields, done, field);
      MergeUpdate(obj.data, CustomColumns(fields, done), CustomKey(field), entry.value);
      data := data[CustomKey(field) := entry.value];
      pending := pending - {field};
      done := done + {field};
    }
    assert done == fields.Keys;
    r := Success(obj.(data := data));
  }

  /** _parse_contact_to_stitch_standard (lines 36-79). */
  method ParseContacts(clientId: string, rows: seq<Json>, stamps: seq<int>) returns (r: Result<seq<Envelope>>)
    requires |stamps| == |rows|
    ensures r == Batch(ContactEnvelope, clientId, rows, stamps)
  {
    var dataList := [];
    for i := 0 to |rows|
      invariant Batch(ContactEnvelope, clientId, rows[..i], stamps[..i]) == Success(dataList)
    {
      var obj := ContactEnvelope(clientId, stamps[i], rows[i]);
      if obj.Failure? {
        BatchFailsAtRow(ContactEnvelope, clientId, rows, stamps, i);
        return Failure(obj.fault);
      }
      BatchAppend(ContactEnvelope, clientId, rows, stamps, i);
      dataList := dataList + [obj.value];
    }
    assert rows[..|rows|] == rows && stamps[..|rows|] == stamps;
    r := Success(dataList);
  }

  /** _parse_customer_to_stitch_standard (lines 81-142): the dictionary
      literal, then _parse_custom_fields on it, for every row. */
  method ParseCustomers(clientId: string, rows: seq<Json>, stamps: seq<int>) returns (r: Result<seq<Envelope>>)
    requires |stamps| == |rows|
    ensures r == Batch(CustomerEnvelope, clientId, rows, stamps)
  {
    var dataList := [];
    for i := 0 to |rows|
      invariant Batch(CustomerEnvelope, clientId, rows[..i], stamps[..i]) == Success(dataList)
    {
      var data := Project(rows[i], CustomerFields);
      if data.Failure? {
        BatchFailsAtRow(CustomerEnvelope, clientId, rows, stamps, i);
        return Failure(data.fault);
      }
      var obj := ParseCustomFields(Upsert(clientId, stamps[i], "customers", data.value), rows[i]);
      if obj.Failure? {
        BatchFailsAtRow(CustomerEnvelope, clientId, rows, stamps, i);
        return Failure(obj.fault);
      }
      BatchAppend(CustomerEnvelope, clientId, rows, stamps, i);
      dataList := dataList + [obj.value];
    }
    assert rows[..|rows|] == rows && stamps[..|rows|] == stamps;
    r := Success(dataList);
  }

  /** _parse_nps_to_stitch_standard (lines 144-175). */
  method ParseNps(clientId: string, rows: seq<Json>, stamps: seq<int>) returns (r: Result<seq<Envelope>>)
    requires |stamps| == |rows|
    ensures r == Batch(NpsEnvelope, clientId, rows, stamps)
  {
    var dataList := [];
    for i := 0 to |rows|
      invariant Batch(NpsEnvelope, clientId, rows[..i], stamps[..i]) == Success(dataList)
    {
      var obj := NpsEnvelope(clientId, stamps[i], rows[i]);
      if obj.Failure? {
        BatchFailsAtRow(NpsEnvelope, clientId, rows, stamps, i);
        return Failure(obj.fault);
      }
      BatchAppend(NpsEnvelope, clientId, rows, stamps, i);
      dataList := dataList + [obj.value];
    }
    assert rows[..|rows|] == rows && stamps[..|rows|] == stamps;
    r := Success(dataList);
  }

  /** _parse_tasks_to_stitch_standard (lines 177-242). */
  method ParseTasks(clientId: string, rows: seq<Json>, stamps: seq<int>) returns (r: Result<seq<Envelope>>)
    requires |stamps| == |rows|
    ensures r == Batch(TaskEnvelope, clientId, rows, stamps)
  {
    var dataList := [];
    for i := 0 to |rows|
      invariant Batch(TaskEnvelope, clientId, rows[..i], stamps[..i]) == Success(dataList)
    {
      var obj := TaskEnvelope(clientId, stamps[i], rows[i]);
      if obj.Failure? {
        BatchFailsAtRow(TaskEnvelope, clientId, rows, stamps, i);
        return Failure(obj.fault);
      }
      BatchAppend(TaskEnvelope, clientId, rows, stamps, i);
      dataList := dataList + [obj.value];
    }
    assert rows[..|rows|] == rows && stamps[..|rows|] == stamps;
    r := Success(dataList);
  }

  /** paser_entity_data_to_stitch_standard (lines 25-34): the parser of the
      named entity, or no result for a name no case matches. */
  method Transform(rows: seq<Json>, entityName: string, clientId: string, stamps: seq<int>)
    returns (r: Option<Result<seq<Envelope>>>)
    requires |stamps| == |rows|
    ensures r.None? <==> EntityNamed(entityName).None?
    ensures r.Some? ==> r.value == Batch(ParserOf(EntityNamed(entityName).value), clientId, rows, stamps)
  {
    match entityName
    case "nps" =>
      var batch := ParseNps(clientId, rows, stamps);
      r := Some(batch);
    case "customers" =>
      var batch := ParseCustomers(clientId, rows, stamps);
      r := Some(batch);
    case "contacts" =>
      var batch := ParseContacts(clientId, rows, stamps);
      r := Some(batch);
    case "tasks" =>
      var batch := ParseTasks(clientId, rows, stamps);
      r := Some(batch);
    case _ =>
      r := None;
  }

  // ---------------------------------------------------------------------
  // Dictionary literals

  /** A literal evaluates exactly when every one of its subscript chains
      does. */
  lemma {:induction false} ProjectSucceeds(row: Json, columns: seq<Column>)
    ensures Project(row, columns).Success? <==>
      forall i | 0 <= i < |columns| :: Resolve(row, columns[i].path).Success?
    decreases |columns|
  {
    if columns != [] {
      var n := |columns| - 1;
      ProjectSucceeds(row, columns[..n]);
      assert forall i | 0 <= i < n :: columns[..n][i] == columns[i];
    }
  }

  /** A key no entry names is not among the literal's keys. */
  lemma NotInNames(columns: seq<Column>, key: string)
    requires forall i | 0 <= i < |columns| :: columns[i].name != key
    ensures key !in Names(columns)
  {
  }

  /** An evaluated literal has exactly the literal's keys. */
  lemma {:induction false} ProjectKeys(row: Json, columns: seq<Column>)
    requires Project(row, columns).Success?
    ensures Project(row, columns).value.Keys == Names(columns)
    decreases |columns|
  {
    if columns != [] {
      var n := |columns| - 1;
      ProjectKeys(row, columns[..n]);
      NamesLast(columns);
    }
  }

  /** The keys of a literal are those of all its entries but the last, and
      the last one's. */
  lemma NamesLast(columns: seq<Column>)
    requires columns != []
    ensures Names(columns) == Names(columns[..|columns| - 1]) + {columns[|columns| - 1].name}
  {
    var n := |columns| - 1;
    assert columns == columns[..n] + [columns[n]];
  }

  /** A subscript that fails anywhere along one of the literal's paths
      fails the whole literal: a missing nested object is never skipped. */
  lemma ProjectFailsOnMissing(row: Json, columns: seq<Column>, i: nat, n: nat)
    requires i < |columns| && n <= |columns[i].path|
    requires Resolve(row, columns[i].path[..n]).Failure?
    ensures Project(row, columns).Failure?
  {
    ResolveFailsAtPrefix(row, columns[i].path, n);
    ProjectSucceeds(row, columns);
  }

  /** The key of an entry that no later entry repeats holds the value at the
      entry's path. */
  lemma {:induction false} ProjectAt(row: Json, columns: seq<Column>, i: nat)
    requires Project(row, columns).Success? && i < |columns|
    requires forall j | i < j < |columns| :: columns[j].name != columns[i].name
    ensures Resolve(row, columns[i].path).Success?
    ensures columns[i].name in Project(row, columns).value
    ensures Project(row, columns).value[columns[i].name] == Resolve(row, columns[i].path).value
    decreases |columns|
  {
    var n := |columns| - 1;
    if i < n {
      assert columns[..n][i] == columns[i];
      ProjectAt(row, columns[..n], i);
    }
  }

  /** No two entries of a literal write the same key. */
  predicate Distinct(columns: seq<Column>) {
    forall i | 0 <= i < |columns| :: forall j | i < j < |columns| :: columns[i].name != columns[j].name
  }

  /** No entry of `a` writes a key that an entry of `b` writes. */
  predicate Apart(a: seq<Column>, b: seq<Column>) {
    forall i | 0 <= i < |a| :: forall j | 0 <= j < |b| :: a[i].name != b[j].name
  }

  lemma DistinctJoin(a: seq<Column>, b: seq<Column>)
    requires Distinct(a) && Distinct(b) && Apart(a, b)
    ensures Distinct(a + b)
  {
  }

  lemma ApartJoin(a: seq<Column>, b: seq<Column>, c: seq<Column>)
    requires Apart(a, c) && Apart(b, c)
    ensures Apart(a + b, c)
  {
  }

  // The solver compares string literals one pair at a time, and a lemma
  // with several such facts as postconditions costs more than the facts
  // apart. So the keys of each literal are checked segment by segment, in
  // shares: `Distinct` within a segment and `Apart` between two segments,
  // one fact for each value of `k`.

  lemma TaskKeyShare1(k: nat)
    ensures k == 0 ==> Distinct(TaskRecordFields)
    ensures k == 1 ==> Distinct(TaskTypeFields)
    ensures k == 2 ==> Distinct(TaskStatusFields)
    ensures k == 3 ==> Distinct(TaskPriorityFields)
    ensures k == 4 ==> Distinct(TaskOwnerFields)
  {
  }

  lemma TaskKeyShare2(k: nat)
    ensures k == 0 ==> Distinct(TaskCreatorFields)
    ensures k == 1 ==> Distinct(TaskTrailingFields)
  {
  }

  lemma TaskKeyShare3(k: nat)
    ensures k == 0 ==> Apart(TaskRecordFields, TaskTypeFields)
    ensures k == 1 ==> Apart(TaskRecordFields, TaskOwnerFields)
    ensures k == 2 ==> Apart(TaskRecordFields, TaskPriorityFields)
  {
  }

  lemma TaskKeyShare4(k: nat)
    ensures k == 0 ==> Apart(TaskRecordFields, TaskStatusFields)
    ensures k == 1 ==> Apart(TaskPriorityFields, TaskOwnerFields)
    ensures k == 2 ==> Apart(TaskStatusFields, TaskCreatorFields)
  {
  }

  lemma TaskKeyShare5(k: nat)
    ensures k == 0 ==> Apart(TaskRecordFields, TaskCreatorFields)
    ensures k == 1 ==> Apart(TaskTypeFields, TaskCreatorFields)
    ensures k == 2 ==> Apart(TaskPriorityFields, TaskCreatorFields)
  {
  }

  lemma TaskKeyShare6(k: nat)
    ensures k == 0 ==> Apart(TaskTypeFields, TaskStatusFields)
    ensures k == 1 ==> Apart(TaskStatusFields, TaskTrailingFields)
    ensures k == 2 ==> Apart(TaskPriorityFields, TaskTrailingFields)
    ensures k == 3 ==> Apart(TaskRecordFields, TaskTrailingFields)
  {
  }

  lemma TaskKeyShare7(k: nat)
    ensures k == 0 ==> Apart(TaskTypeFields, TaskPriorityFields)
    ensures k == 1 ==> Apart(TaskStatusFields, TaskPriorityFields)
    ensures k == 2 ==> Apart(TaskTypeFields, TaskTrailingFields)
  {
  }

  lemma TaskKeyShare8(k: nat)
    ensures k == 0 ==> Apart(TaskTypeFields, TaskOwnerFields)
    ensures k == 1 ==> Apart(TaskStatusFields, TaskOwnerFields)
    ensures k == 2 ==> Apart(TaskOwnerFields, TaskCreatorFields)
  {
  }

  lemma TaskKeyShare9()
    ensures Apart(TaskOwnerFields, TaskTrailingFields)
  {
  }

  lemma TaskKeyShare10()
    ensures Apart(TaskCreatorFields, TaskTrailingFields)
  {
  }

  lemma CustomerKeyShare1()
    ensures Distinct(CustomerRecordFields)
  {
  }

  lemma CustomerKeyShare2(k: nat)
    ensures k == 0 ==> Distinct(CustomerStatusFields)
    ensures k == 1 ==> Distinct(CustomerCsFields)
    ensures k == 2 ==> Distinct(CustomerCsmFields)
    ensures k == 3 ==> Apart(CustomerStatusFields, CustomerCsFields)
    ensures k == 4 ==> Apart(CustomerStatusFields, CustomerCsmFields)
  {
  }

  lemma CustomerKeyShare3()
    ensures Apart(CustomerRecordFields, CustomerCsFields)
  {
  }

  lemma CustomerKeyShare4()
    ensures Apart(CustomerRecordFields, CustomerCsmFields)
  {
  }

  lemma CustomerKeyShare5(k: nat)
    ensures k == 0 ==> Apart(CustomerRecordFields, CustomerStatusFields)
    ensures k == 1 ==> Apart(CustomerCsFields, CustomerCsmFields)
  {
  }

  lemma ContactKeyShare1(k: nat)
    ensures k == 0 ==> Distinct(ContactKeyFields)
    ensures k == 1 ==> Distinct(ContactCustomerFields)
    ensures k == 2 ==> Apart(ContactKeyFields, ContactCustomerFields)
    ensures k == 3 ==> Apart(ContactKeyFields, ContactPersonFields)
    ensures k == 4 ==> Apart(ContactCustomerFields, ContactPersonFields)
  {
  }

  lemma ContactKeyShare2()
    ensures Distinct(ContactPersonFields)
  {
  }

  /** The task literal writes every key once. */
  lemma TaskKeysDistinct()
    ensures Distinct(TaskFields)
  {
    TaskKeyShare1(0); TaskKeyShare1(1); TaskKeyShare1(2); TaskKeyShare1(3); TaskKeyShare1(4);
    TaskKeyShare2(0); TaskKeyShare2(1);
    TaskKeyShare3(0); TaskKeyShare3(1); TaskKeyShare3(2);
    TaskKeyShare4(0); TaskKeyShare4(1); TaskKeyShare4(2);
    TaskKeyShare5(0); TaskKeyShare5(1); TaskKeyShare5(2);
    TaskKeyShare6(0); TaskKeyShare6(1); TaskKeyShare6(2); TaskKeyShare6(3);
    TaskKeyShare7(0); TaskKeyShare7(1); TaskKeyShare7(2);
    TaskKeyShare8(0); TaskKeyShare8(1); TaskKeyShare8(2);
    TaskKeyShare9(); TaskKeyShare10();
    var r, t, s, p := TaskRecordFields, TaskTypeFields, TaskStatusFields, TaskPriorityFields;
    var o, c, tr := TaskOwnerFields, TaskCreatorFields, TaskTrailingFields;
    DistinctJoin(r, t);
    ApartJoin(r, t, s);
    DistinctJoin(r + t, s);
    ApartJoin(r, t, p); ApartJoin(r + t, s, p);
    DistinctJoin(r + t + s, p);
    ApartJoin(r, t, o); ApartJoin(r + t, s, o); ApartJoin(r + t + s, p, o);
    DistinctJoin(r + t + s + p, o);
    ApartJoin(r, t, c); ApartJoin(r + t, s, c); ApartJoin(r + t + s, p, c); ApartJoin(r + t + s + p, o, c);
    DistinctJoin(r + t + s + p + o, c);
    ApartJoin(r, t, tr); ApartJoin(r + t, s, tr); ApartJoin(r + t + s, p, tr);
    ApartJoin(r + t + s + p, o, tr); ApartJoin(r + t + s + p + o, c, tr);
    DistinctJoin(r + t + s + p + o + c, tr);
  }

  /** The customer literal writes every key once. */
  lemma CustomerKeysDistinct()
    ensures Distinct(CustomerFields)
  {
    CustomerKeyShare1();
    CustomerKeyShare2(0); CustomerKeyShare2(1); CustomerKeyShare2(2); CustomerKeyShare2(3); CustomerKeyShare2(4);
    CustomerKeyShare3();
    CustomerKeyShare4();
    CustomerKeyShare5(0); CustomerKeyShare5(1);
    var r, s := CustomerRecordFields, CustomerStatusFields;
    var cs, csm := CustomerCsFields, CustomerCsmFields;
    DistinctJoin(r, s);
    ApartJoin(r, s, cs);
    DistinctJoin(r + s, cs);
    ApartJoin(r, s, csm); ApartJoin(r + s, cs, csm);
    DistinctJoin(r + s + cs, csm);
  }

  /** The contact literal writes every key once. */
  lemma ContactKeysDistinct()
    ensures Distinct(ContactFields)
  {
    ContactKeyShare1(0); ContactKeyShare1(1); ContactKeyShare1(2); ContactKeyShare1(3); ContactKeyShare1(4);
    ContactKeyShare2();
    var k, c, p := ContactKeyFields, ContactCustomerFields, ContactPersonFields;
    DistinctJoin(k, c);
    ApartJoin(k, c, p);
    DistinctJoin(k + c, p);
  }

  /** In a literal that writes every key once, every key holds the value at
      its entry's path. */
  lemma ProjectAll(row: Json, columns: seq<Column>)
    requires Project(row, columns).Success? && Distinct(columns)
    ensures forall i | 0 <= i < |columns| ::
      && Resolve(row, columns[i].path).Success?
      && columns[i].name in Project(row, columns).value
      && Project(row, columns).value[columns[i].name] == Resolve(row, columns[i].path).value
  {
    forall i | 0 <= i < |columns|
      ensures Resolve(row, columns[i].path).Success?
      ensures columns[i].name in Project(row, columns).value
      ensures Project(row, columns).value[columns[i].name] == Resolve(row, columns[i].path).value
    {
      assert forall j | i < j < |columns| :: columns[j].name != columns[i].name;
      ProjectAt(row, columns, i);
    }
  }

  /** A literal whose every entry copies the top-level field of its own name
      is the object restricted to those names; it fails when one of them is
      missing. */
  lemma {:induction false} ProjectFlat(row: Json, columns: seq<Column>)
    requires row.JObject?
    requires forall i | 0 <= i < |columns| :: columns[i].path == [columns[i].name]
    ensures Project(row, columns).Success? <==> Names(columns) <= row.fields.Keys
    ensures Project(row, columns).Success? ==>
      Project(row, columns).value == map k | k in Names(columns) :: row.fields[k]
    decreases |columns|
  {
    if columns != [] {
      var n := |columns| - 1;
      assert columns == columns[..n] + [columns[n]];
      assert Names(columns) == Names(columns[..n]) + {columns[n].name};
      ProjectFlat(row, columns[..n]);
      assert Resolve(row, columns[n].path) == Get(row, columns[n].name);
    }
  }

  // ---------------------------------------------------------------------
  // Properties of single records

  /** The NPS literal copies each of its 17 fields verbatim. */
  lemma NpsFieldsFlat()
    ensures forall i | 0 <= i < |NpsFields| :: NpsFields[i].path == [NpsFields[i].name]
  {
  }

  /** An NPS envelope's `data` is the answer restricted to the 17 listed
      fields; an answer missing one of them fails. */
  lemma NpsData(clientId: string, stamp: int, row: Json)
    ensures NpsEnvelope(clientId, stamp, row).Success? <==>
      row.JObject? && Names(NpsFields) <= row.fields.Keys
    ensures NpsEnvelope(clientId, stamp, row).Success? ==>
      NpsEnvelope(clientId, stamp, row).value.data == map k | k in Names(NpsFields) :: row.fields[k]
  {
    if row.JObject? {
      NpsFieldsFlat();
      ProjectFlat(row, NpsFields);
    } else {
      ProjectFailsOnMissing(row, NpsFields, 0, 1);
    }
  }

  /** An answer with exactly the 17 listed fields comes out unchanged as
      the envelope's `data`. */
  lemma NpsDataWhole(clientId: string, stamp: int, row: Json)
    requires row.JObject? && row.fields.Keys == Names(NpsFields)
    ensures NpsEnvelope(clientId, stamp, row).Success?
    ensures NpsEnvelope(clientId, stamp, row).value.data == row.fields
  {
    NpsData(clientId, stamp, row);
  }

  /** A task's `data` holds, under every key of the literal, the value at
      that key's subscript chain, and no other key. */
  lemma TaskRoundTrip(clientId: string, stamp: int, row: Json)
    requires TaskEnvelope(clientId, stamp, row).Success?
    ensures TaskEnvelope(clientId, stamp, row).value.data.Keys == Names(TaskFields)
    ensures forall i | 0 <= i < |TaskFields| ::
      && Resolve(row, TaskFields[i].path).Success?
      && TaskFields[i].name in TaskEnvelope(clientId, stamp, row).value.data
      && TaskEnvelope(clientId, stamp, row).value.data[TaskFields[i].name] == Resolve(row, TaskFields[i].path).value
  {
    TaskKeysDistinct();
    ProjectAll(row, TaskFields);
    ProjectKeys(row, TaskFields);
  }

  /** A contact's `data` holds, under every key of the literal, the value at
      that key's subscript chain; its only other keys are `types_id` and
      `types_name`, present exactly when `types` is truthy. */
  lemma ContactRoundTrip(clientId: string, stamp: int, row: Json)
    requires ContactEnvelope(clientId, stamp, row).Success?
    ensures ContactEnvelope(clientId, stamp, row).value.data.Keys ==
      Names(ContactFields) + if Truthy(row.fields["types"]) then {"types_id", "types_name"} else {}
    ensures forall i | 0 <= i < |ContactFields| ::
      && Resolve(row, ContactFields[i].path).Success?
      && ContactFields[i].name in ContactEnvelope(clientId, stamp, row).value.data
      && ContactEnvelope(clientId, stamp, row).value.data[ContactFields[i].name] == Resolve(row, ContactFields[i].path).value
  {
    ContactKeysDistinct();
    ProjectAll(row, ContactFields);
    ProjectKeys(row, ContactFields);
    ContactFieldsWithoutTypes();
    forall i | 0 <= i < |ContactFields|
      ensures ContactFields[i].name != "types_id" && ContactFields[i].name != "types_name"
    {
      assert ContactFields[i].name in Names(ContactFields);
    }
  }

  /** A customer's `data` holds, under every key of the literal, the value
      at that key's subscript chain; its only other keys are the
      `custom_fields_<name>` ones. */
  lemma CustomerRoundTrip(clientId: string, stamp: int, row: Json)
    requires CustomerEnvelope(clientId, stamp, row).Success?
    ensures CustomFieldsOf(row).Success?
    ensures CustomerEnvelope(clientId, stamp, row).value.data.Keys ==
      Names(CustomerFields) + CustomKeys(CustomFieldsOf(row).value.Keys)
    ensures forall i | 0 <= i < |CustomerFields| ::
      && Resolve(row, CustomerFields[i].path).Success?
      && CustomerFields[i].name in CustomerEnvelope(clientId, stamp, row).value.data
      && CustomerEnvelope(clientId, stamp, row).value.data[CustomerFields[i].name] == Resolve(row, CustomerFields[i].path).value
  {
    var data := Project(row, CustomerFields).value;
    var obj := Upsert(clientId, stamp, "customers", data);
    CustomerKeysDistinct();
    ProjectAll(row, CustomerFields);
    ProjectKeys(row, CustomerFields);
    CustomFieldsFlattened(obj, row);
    CustomerFieldsNotCustom();
    forall i | 0 <= i < |CustomerFields|
      ensures CustomerFields[i].name !in CustomKeys(CustomFieldsOf(row).value.Keys)
    {
      NotCustomKey(CustomerFields[i].name, CustomFieldsOf(row).value.Keys);
    }
  }

  /** No key of the customer literal starts with `custom_fields_`. */
  lemma CustomerFieldsNotCustom()
    ensures forall i | 0 <= i < |CustomerFields| :: !(CustomPrefix <= CustomerFields[i].name)
  {
    forall i | 0 <= i < |CustomerFields|
      ensures !(CustomPrefix <= CustomerFields[i].name)
    {
      assert |CustomerFields[i].name| < 2 || CustomerFields[i].name[1] != CustomPrefix[1];
    }
  }

  /** A contact's envelope carries `types_id` and `types_name` exactly when
      its `types` is truthy, copied from the first type; a contact without a
      `types` field fails instead of leaving them out. */
  lemma ContactTypes(clientId: string, stamp: int, row: Json)
    ensures Get(row, "types").Failure? ==> ContactEnvelope(clientId, stamp, row).Failure?
    ensures ContactEnvelope(clientId, stamp, row).Success? ==>
      var data := ContactEnvelope(clientId, stamp, row).value.data;
      var types := row.fields["types"];
      && ("types_id" in data <==> Truthy(types))
      && ("types_name" in data <==> Truthy(types))
      && (Truthy(types) ==>
            && data["types_id"] == types.items[0].fields["id"]
            && data["types_name"] == types.items[0].fields["name"])
  {
    if Project(row, ContactFields).Success? {
      ProjectKeys(row, ContactFields);
      ContactFieldsWithoutTypes();
    }
  }

  /** The contact literal itself writes neither `types_id` nor
      `types_name`. */
  lemma ContactFieldsWithoutTypes()
    ensures "types_id" !in Names(ContactFields) && "types_name" !in Names(ContactFields)
  {
    assert forall i | 0 <= i < |ContactFields| ::
      ContactFields[i].name != "types_id" && ContactFields[i].name != "types_name";
    NotInNames(ContactFields, "types_id");
    NotInNames(ContactFields, "types_name");
  }

  /** The custom-field flattener writes `custom_fields_<name>` with the
      `value` of every custom field, keeps every other entry of `data` and
      every other part of the envelope, and fails when one of the custom
      fields has no `value`. */
  lemma CustomFieldsFlattened(obj: Envelope, row: Json)
    requires CustomFieldsOf(row).Success?
    ensures var fields := CustomFieldsOf(row).value;
      FlattenCustomFields(obj, row).Success? <==> forall name | name in fields :: HasValue(fields[name])
    ensures FlattenCustomFields(obj, row).Success? ==>
      var fields := CustomFieldsOf(row).value;
      var r := FlattenCustomFields(obj, row).value;
      && r.data.Keys == obj.data.Keys + CustomKeys(fields.Keys)
      && (forall name | name in fields :: r.data[CustomKey(name)] == fields[name].fields["value"])
      && (forall k | k in obj.data && k !in CustomKeys(fields.Keys) :: r.data[k] == obj.data[k])
      && r.(data := obj.data) == obj
  {
    var fields := CustomFieldsOf(row).value;
    if forall k | k in fields :: HasValue(fields[k]) {
      var cols := CustomColumns(fields, fields.Keys);
      forall name | name in fields
        ensures CustomKey(name) in cols && cols[CustomKey(name)] == ValueOf(fields[name])
      {
        FieldOfCustomKey(name);
      }
    }
  }

  /** A row without `custom_fields` fails; an empty mapping adds nothing. */
  lemma CustomFieldsEdges(obj: Envelope, row: Json)
    ensures Get(row, "custom_fields").Failure? ==> FlattenCustomFields(obj, row).Failure?
    ensures CustomFieldsOf(row) == Success(map[]) ==> FlattenCustomFields(obj, row) == Success(obj)
  {
    if CustomFieldsOf(row) == Success(map[]) {
      assert CustomColumns(map[], {}) == map[];
      assert obj.data + map[] == obj.data;
    }
  }

  /** A task's `type_id` is `row['type']['id']`. */
  lemma TaskTypeId(clientId: string, stamp: int, row: Json)
    requires TaskEnvelope(clientId, stamp, row).Success?
    ensures Resolve(row, ["type", "id"]).Success?
    ensures "type_id" in TaskEnvelope(clientId, stamp, row).value.data
    ensures TaskEnvelope(clientId, stamp, row).value.data["type_id"] == Resolve(row, ["type", "id"]).value
  {
    assert TaskFields[11] == Column("type_id", ["type", "id"]);
    TaskRoundTrip(clientId, stamp, row);
  }

  /** A task's `owner_profile_role` is `row['owner']['profile']['role']`. */
  lemma TaskOwnerRole(clientId: string, stamp: int, row: Json)
    requires TaskEnvelope(clientId, stamp, row).Success?
    ensures Resolve(row, ["owner", "profile", "role"]).Success?
    ensures "owner_profile_role" in TaskEnvelope(clientId, stamp, row).value.data
    ensures TaskEnvelope(clientId, stamp, row).value.data["owner_profile_role"] == Resolve(row, ["owner", "profile", "role"]).value
  {
    assert TaskFields[25] == Column("owner_profile_role", ["owner", "profile", "role"]);
    TaskRoundTrip(clientId, stamp, row);
  }

  /** A task missing one of its nested objects, or whose owner or creator
      has no profile, fails. */
  lemma TaskNeedsNestedObjects(clientId: string, stamp: int, row: Json)
    requires || Get(row, "type").Failure? || Get(row, "status").Failure?
             || Get(row, "priority").Failure? || Get(row, "owner").Failure?
             || Get(row, "created_by").Failure?
             || Resolve(row, ["owner", "profile"]).Failure?
             || Resolve(row, ["created_by", "profile"]).Failure?
    ensures TaskEnvelope(clientId, stamp, row).Failure?
  {
    if Get(row, "type").Failure? {
      assert TaskFields[11].path == ["type", "id"];
      ProjectFailsOnMissing(row, TaskFields, 11, 1);
    } else if Get(row, "status").Failure? {
      assert TaskFields[16].path == ["status", "id"];
      ProjectFailsOnMissing(row, TaskFields, 16, 1);
    } else if Get(row, "priority").Failure? {
      assert TaskFields[18].path == ["priority", "id"];
      ProjectFailsOnMissing(row, TaskFields, 18, 1);
    } else if Resolve(row, ["owner", "profile"]).Failure? {
      assert TaskFields[25].path == ["owner", "profile", "role"];
      assert TaskFields[25].path[..2] == ["owner", "profile"];
      ProjectFailsOnMissing(row, TaskFields, 25, 2);
    } else {
      assert TaskFields[35].path == ["created_by", "profile", "role"];
      assert TaskFields[35].path[..2] == ["created_by", "profile"];
      ProjectFailsOnMissing(row, TaskFields, 35, 2);
    }
  }

  /** A key that does not start with `custom_fields_` is never written by
      the custom-field flattener. */
  lemma NotCustomKey(key: string, names: set<string>)
    requires !(CustomPrefix <= key)
    ensures key !in CustomKeys(names)
  {
    forall name | name in names
      ensures CustomKey(name) != key
    {
      assert CustomPrefix <= CustomKey(name);
    }
  }

  /** The flattener leaves an entry whose key does not start with
      `custom_fields_` as it was. */
  lemma FlattenKeeps(obj: Envelope, row: Json, key: string)
    requires FlattenCustomFields(obj, row).Success? && key in obj.data
    requires !(CustomPrefix <= key)
    ensures key in FlattenCustomFields(obj, row).value.data
    ensures FlattenCustomFields(obj, row).value.data[key] == obj.data[key]
  {
    NotCustomKey(key, CustomFieldsOf(row).value.Keys);
    CustomFieldsFlattened(obj, row);
  }

  /** A customer is flattened with dotted names: `cs.profile.role` is
      `row['cs']['profile']['role']`, whatever its custom fields are. */
  lemma CustomerCsRole(clientId: string, stamp: int, row: Json)
    requires CustomerEnvelope(clientId, stamp, row).Success?
    ensures Resolve(row, ["cs", "profile", "role"]).Success?
    ensures "cs.profile.role" in CustomerEnvelope(clientId, stamp, row).value.data
    ensures CustomerEnvelope(clientId, stamp, row).value.data["cs.profile.role"] == Resolve(row, ["cs", "profile", "role"]).value
  {
    assert CustomerFields[30] == Column("cs.profile.role", ["cs", "profile", "role"]);
    CustomerRoundTrip(clientId, stamp, row);
  }

  /** A customer missing its status, CS or CSM, or whose CS or CSM has no
      profile, fails. */
  lemma CustomerNeedsNestedObjects(clientId: string, stamp: int, row: Json)
    requires || Get(row, "status").Failure? || Get(row, "cs").Failure? || Get(row, "csm").Failure?
             || Resolve(row, ["cs", "profile"]).Failure?
             || Resolve(row, ["csm", "profile"]).Failure?
    ensures CustomerEnvelope(clientId, stamp, row).Failure?
  {
    if Get(row, "status").Failure? {
      assert CustomerFields[22].path == ["status", "id"];
      ProjectFailsOnMissing(row, CustomerFields, 22, 1);
    } else if Get(row, "cs").Failure? {
      assert CustomerFields[30].path == ["cs", "profile", "role"];
      ProjectFailsOnMissing(row, CustomerFields, 30, 1);
    } else if Get(row, "csm").Failure? {
      assert CustomerFields[40].path == ["csm", "profile", "role"];
      ProjectFailsOnMissing(row, CustomerFields, 40, 1);
    } else if Resolve(row, ["cs", "profile"]).Failure? {
      assert CustomerFields[30].path == ["cs", "profile", "role"];
      assert CustomerFields[30].path[..2] == ["cs", "profile"];
      ProjectFailsOnMissing(row, CustomerFields, 30, 2);
    } else {
      assert CustomerFields[40].path == ["csm", "profile", "role"];
      assert CustomerFields[40].path[..2] == ["csm", "profile"];
      ProjectFailsOnMissing(row, CustomerFields, 40, 2);
    }
  }

  /** A contact's `customer_id` is `row['customer']['id']`; a contact
      without a `customer` fails. */
  lemma ContactCustomerId(clientId: string, stamp: int, row: Json)
    ensures Get(row, "customer").Failure? ==> ContactEnvelope(clientId, stamp, row).Failure?
    ensures ContactEnvelope(clientId, stamp, row).Success? ==>
      && Resolve(row, ["customer", "id"]).Success?
      && "customer_id" in ContactEnvelope(clientId, stamp, row).value.data
      && ContactEnvelope(clientId, stamp, row).value.data["customer_id"] == Resolve(row, ["customer", "id"]).value
  {
    assert ContactFields[2] == Column("customer_id", ["customer", "id"]);
    if Get(row, "customer").Failure? {
      ProjectFailsOnMissing(row, ContactFields, 2, 1);
    }
    if ContactEnvelope(clientId, stamp, row).Success? {
      ContactRoundTrip(clientId, stamp, row);
    }
  }

  /** No path of the literal starts at `key`. */
  predicate Avoids(columns: seq<Column>, key: string) {
    forall i | 0 <= i < |columns| :: |columns[i].path| > 0 && columns[i].path[0] != key
  }

  /** A literal none of whose paths starts at `key` does not see what the
      row holds under `key`. */
  lemma {:induction false} ProjectIgnores(row: Json, columns: seq<Column>, key: string, v: Json)
    requires row.JObject? && Avoids(columns, key)
    ensures Project(JObject(row.fields[key := v]), columns) == Project(row, columns)
    decreases |columns|
  {
    if columns != [] {
      var n := |columns| - 1;
      assert Avoids(columns[..n], key) by {
        forall i | 0 <= i < n ensures columns[..n][i] == columns[i] { }
      }
      ProjectIgnores(row, columns[..n], key, v);
      var p := columns[n].path;
      assert Get(JObject(row.fields[key := v]), p[0]) == Get(row, p[0]);
      assert Resolve(JObject(row.fields[key := v]), p) == Resolve(row, p);
    }
  }

  /** Joining two literals that avoid `key` gives one that avoids it. */
  lemma AvoidsConcat(a: seq<Column>, b: seq<Column>, key: string)
    requires Avoids(a, key) && Avoids(b, key)
    ensures Avoids(a + b, key)
  {
    forall i | 0 <= i < |a + b|
      ensures |(a + b)[i].path| > 0 && (a + b)[i].path[0] != key
    {
      if i >= |a| {
        assert (a + b)[i] == b[i - |a|];
      }
    }
  }

  /** No task entry reads the row's custom fields. */
  lemma TaskFieldsAvoidCustomFields()
    ensures Avoids(TaskFields, "custom_fields")
  {
    var k := "custom_fields";
    assert Avoids(TaskTrailingFields, k) by {
      assert "hours_planned"[0] != k[0];
    }
    assert Avoids(TaskRecordFields, k);
    assert Avoids(TaskTypeFields, k);
    assert Avoids(TaskStatusFields, k);
    assert Avoids(TaskPriorityFields, k);
    assert Avoids(TaskOwnerFields, k);
    assert Avoids(TaskCreatorFields, k);
    AvoidsConcat(TaskRecordFields, TaskTypeFields, k);
    AvoidsConcat(TaskRecordFields + TaskTypeFields, TaskStatusFields, k);
    AvoidsConcat(TaskRecordFields + TaskTypeFields + TaskStatusFields, TaskPriorityFields, k);
    AvoidsConcat(TaskRecordFields + TaskTypeFields + TaskStatusFields + TaskPriorityFields, TaskOwnerFields, k);
    AvoidsConcat(TaskRecordFields + TaskTypeFields + TaskStatusFields + TaskPriorityFields + TaskOwnerFields, TaskCreatorFields, k);
    AvoidsConcat(TaskRecordFields + TaskTypeFields + TaskStatusFields + TaskPriorityFields + TaskOwnerFields + TaskCreatorFields, TaskTrailingFields, k);
  }

  /** No contact entry reads the row's custom fields. */
  lemma ContactFieldsAvoidCustomFields()
    ensures Avoids(ContactFields, "custom_fields")
  {
    var k := "custom_fields";
    assert Avoids(ContactKeyFields, k);
    assert Avoids(ContactCustomerFields, k);
    assert Avoids(ContactPersonFields, k);
    AvoidsConcat(ContactKeyFields, ContactCustomerFields, k);
    AvoidsConcat(ContactKeyFields + ContactCustomerFields, ContactPersonFields, k);
  }

  /** Only the customer parser reads `custom_fields`: whatever a contact, an
      NPS answer or a task holds there, its envelope is the same. */
  lemma ContactIgnoresCustomFields(clientId: string, stamp: int, row: Json, v: Json)
    requires row.JObject?
    ensures ContactEnvelope(clientId, stamp, JObject(row.fields["custom_fields" := v])) ==
      ContactEnvelope(clientId, stamp, row)
  {
    ContactFieldsAvoidCustomFields();
    ProjectIgnores(row, ContactFields, "custom_fields", v);
    assert "types" != "custom_fields";
  }

  lemma NpsIgnoresCustomFields(clientId: string, stamp: int, row: Json, v: Json)
    requires row.JObject?
    ensures NpsEnvelope(clientId, stamp, JObject(row.fields["custom_fields" := v])) ==
      NpsEnvelope(clientId, stamp, row)
  {
    assert Avoids(NpsFields, "custom_fields");
    ProjectIgnores(row, NpsFields, "custom_fields", v);
  }

  lemma TaskIgnoresCustomFields(clientId: string, stamp: int, row: Json, v: Json)
    requires row.JObject?
    ensures TaskEnvelope(clientId, stamp, JObject(row.fields["custom_fields" := v])) ==
      TaskEnvelope(clientId, stamp, row)
  {
    TaskFieldsAvoidCustomFields();
    ProjectIgnores(row, TaskFields, "custom_fields", v);
  }

  /** Of the four parsers, only the customer parser reads a row's
      `custom_fields`. */
  lemma OnlyCustomersReadCustomFields(e: Entity, clientId: string, stamp: int, row: Json, v: Json)
    requires e != Customers && row.JObject?
    ensures ParserOf(e)(clientId, stamp, JObject(row.fields["custom_fields" := v])) ==
      ParserOf(e)(clientId, stamp, row)
  {
    match e
    case Contacts => ContactIgnoresCustomFields(clientId, stamp, row, v);
    case Nps => NpsIgnoresCustomFields(clientId, stamp, row, v);
    case Tasks => TaskIgnoresCustomFields(clientId, stamp, row, v);
  }
}
