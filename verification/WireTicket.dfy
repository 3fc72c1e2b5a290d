/** The generated client's ticket record on the wire. */
module WireTicket {
  import opened Prelude
  import opened WireUuid

  const NANOS: int := 1_000_000_000

  datatype Timestamp = Timestamp(seconds: int, nanos: nat)

  /** The value kinds a ticket uses, and one that stands for all it does not. */
  datatype Kind =
    | StringValue(text: Text)
    | EnumValue(typeId: nat, variantId: nat, name: Text)
    | UuidValue(bytes: Bytes)
    | TimestampValue(at: Timestamp)
    | RecordValue(fields: seq<Field>)
    | OtherValue

  datatype Value = Value(kind: Option<Kind>)

  datatype Field = Field(id: Option<nat>, name: Text, value: Option<Value>)

  datatype Ticket = Ticket(title: Text, status: Text, ticket: Text, created: Timestamp, project: Text,
                           updated: Timestamp, assignee: Text, reporter: Text, organization: Text)

  // --- encoding ------------------------------------------------------------

  predicate Encodable(t: Ticket) {
    && Parses(t.ticket) && Parses(t.project) && Parses(t.assignee) && Parses(t.reporter) && Parses(t.organization)
    && t.created.nanos < NANOS && t.updated.nanos < NANOS
  }

  function Plain(id: nat, kind: Kind): Field {
    Field(Some(id), [], Some(Value(Some(kind))))
  }

  /** What the encoder writes as field `id`. */
  function Written(t: Ticket, id: nat): Kind
    requires Encodable(t)
  {
    match id
    case 1 => StringValue(t.title)
    case 2 => EnumValue(0, 0, t.status)
    case 3 => UuidValue(Parse(t.ticket))
    case 4 => TimestampValue(t.created)
    case 5 => UuidValue(Parse(t.project))
    case 6 => TimestampValue(t.updated)
    case 7 => UuidValue(Parse(t.assignee))
    case 8 => UuidValue(Parse(t.reporter))
    case 9 => UuidValue(Parse(t.organization))
    case _ => OtherValue
  }

  function Fields(t: Ticket): (fields: seq<Field>)
    requires Encodable(t)
    ensures |fields| == 9 && forall i :: 0 <= i < 9 ==> fields[i] == Plain(i + 1, Written(t, i + 1))
  {
    seq(9, i requires 0 <= i < 9 => Plain(i + 1, Written(t, i + 1)))
  }

  method Encode(t: Ticket) returns (value: Option<Value>)
    ensures value.Some? <==> Encodable(t)
    ensures value.Some? ==> value.value == Value(Some(RecordValue(Fields(t))))
  {
    var ticket := WireBytes(t.ticket);
    var project := WireBytes(t.project);
    var assignee := WireBytes(t.assignee);
    var reporter := WireBytes(t.reporter);
    var organization := WireBytes(t.organization);
    if ticket.None? || t.created.nanos >= NANOS || project.None? || t.updated.nanos >= NANOS
       || assignee.None? || reporter.None? || organization.None? {
      return None;
    }
    var fields := [Plain(1, StringValue(t.title)), Plain(2, EnumValue(0, 0, t.status)),
                   Plain(3, UuidValue(ticket.value)), Plain(4, TimestampValue(t.created)),
                   Plain(5, UuidValue(project.value)), Plain(6, TimestampValue(t.updated)),
                   Plain(7, UuidValue(assignee.value)), Plain(8, UuidValue(reporter.value)),
                   Plain(9, UuidValue(organization.value))];
    assert fields == Fields(t);
    return Some(Value(Some(RecordValue(fields))));
  }

  // --- what a record must be -----------------------------------------------

  predicate Numbered(f: Field) {
    f.id.Some? && f.id.value > 0 && f.value.Some?
  }

  /** Every field numbered and present, no number twice. */
  ghost predicate Distinct(fields: seq<Field>) {
    && (forall i :: 0 <= i < |fields| ==> Numbered(fields[i]))
    && forall i, j :: 0 <= i < j < |fields| ==> fields[i].id != fields[j].id
  }

  /** The value kind each of the nine numbers calls for. */
  predicate KindFits(id: nat, kind: Kind) {
    match id
    case 1 => kind.StringValue?
    case 2 => kind.EnumValue? && kind.name != []
    case 4 => kind.TimestampValue? && kind.at.nanos < NANOS
    case 6 => kind.TimestampValue? && kind.at.nanos < NANOS
    case _ => kind.UuidValue? && |kind.bytes| == 16
  }

  predicate FieldFits(f: Field) {
    f.id.Some? && 1 <= f.id.value <= 9 && f.value.Some? && f.value.value.kind.Some?
    && KindFits(f.id.value, f.value.value.kind.value)
  }

  ghost predicate HasField(fields: seq<Field>, id: nat) {
    exists i :: 0 <= i < |fields| && fields[i].id == Some(id)
  }

  /** The numbers are exactly 1 to 9, each once, and every value is of its number's kind. */
  ghost predicate Decodable(fields: seq<Field>) {
    && Distinct(fields) && (forall i :: 0 <= i < |fields| ==> FieldFits(fields[i]))
    && forall id :: 1 <= id <= 9 ==> HasField(fields, id)
  }

  /** The record read as a table from number to value. */
  ghost predicate Tabulates(table: map<nat, Value>, fields: seq<Field>) {
    && (forall id :: id in table ==> HasField(fields, id))
    && forall i :: 0 <= i < |fields| ==> Numbered(fields[i]) && fields[i].id.value in table
                                         && table[fields[i].id.value] == fields[i].value.value
  }

  lemma {:induction false} DistinctExtends(fields: seq<Field>, f: Field, table: map<nat, Value>)
    requires Distinct(fields) && Tabulates(table, fields) && Numbered(f) && f.id.value !in table
    ensures Distinct(fields + [f]) && Tabulates(table[f.id.value := f.value.value], fields + [f])
  {
    var longer := fields + [f];
    forall id | id in table[f.id.value := f.value.value]
      ensures HasField(longer, id)
    {
      if id == f.id.value {
        assert longer[|fields|].id == Some(id);
      } else {
        var i :| 0 <= i < |fields| && fields[i].id == Some(id);
        assert longer[i].id == Some(id);
      }
    }
  }

  /** Fills the table field by field; a repeated, missing or zero number is refused. */
  method RecordFields(value: Value) returns (table: Option<map<nat, Value>>)
    ensures table.Some? <==> value.kind.Some? && value.kind.value.RecordValue? && Distinct(value.kind.value.fields)
    ensures table.Some? ==> Tabulates(table.value, value.kind.value.fields)
  {
    if value.kind.None? || !value.kind.value.RecordValue? {
      return None;
    }
    var fields := value.kind.value.fields;
    var filled: map<nat, Value> := map[];
    for i := 0 to |fields|
      invariant Distinct(fields[..i]) && Tabulates(filled, fields[..i])
    {
      var f := fields[i];
      assert fields[..i + 1] == fields[..i] + [f];
      if !Numbered(f) {
        assert !Numbered(fields[i]);
        return None;
      }
      if f.id.value in filled {
        assert HasField(fields[..i], f.id.value);
        return None;
      }
      DistinctExtends(fields[..i], f, filled);
      filled := filled[f.id.value := f.value.value];
    }
    assert fields[..|fields|] == fields;
    return Some(filled);
  }

  /** Removes one field from the table and checks its kind. */
  method Take(table: map<nat, Value>, id: nat) returns (kind: Option<Kind>, rest: map<nat, Value>)
    ensures kind.Some? <==> id in table && table[id].kind.Some? && KindFits(id, table[id].kind.value)
    ensures kind.Some? ==> kind.value == table[id].kind.value && KindFits(id, kind.value)
    ensures rest == table - {id}
  {
    rest := table - {id};
    kind := None;
    if id in table && table[id].kind.Some? && KindFits(id, table[id].kind.value) {
      kind := table[id].kind;
    }
  }

  ghost predicate EntryFits(table: map<nat, Value>, id: nat) {
    id in table && table[id].kind.Some? && KindFits(id, table[id].kind.value)
  }

  ghost predicate TableFits(table: map<nat, Value>) {
    (forall id :: 1 <= id <= 9 ==> EntryFits(table, id)) && forall id :: id in table ==> 1 <= id <= 9
  }

  /** The kinds of the first entries, in order. */
  ghost predicate Took(table: map<nat, Value>, kinds: seq<Kind>) {
    forall i :: 0 <= i < |kinds| ==> EntryFits(table, i + 1) && table[i + 1].kind == Some(kinds[i])
  }

  /** Takes the fields 1 to 9 one after the other, and then wants nothing left. */
  method TakeAll(table: map<nat, Value>) returns (kinds: Option<seq<Kind>>)
    ensures kinds.Some? <==> TableFits(table)
    ensures kinds.Some? ==> |kinds.value| == 9 && Took(table, kinds.value)
  {
    var rest, taken: seq<Kind> := table, [];
    for id := 1 to 10
      invariant rest.Keys == set k | k in table && !(1 <= k < id)
      invariant forall k :: k in rest ==> rest[k] == table[k]
      invariant forall k :: 1 <= k < id ==> EntryFits(table, k)
      invariant |taken| == id - 1 && Took(table, taken)
    {
      var kind, less := Take(rest, id);
      if kind.None? {
        assert !EntryFits(table, id);
        return None;
      }
      rest, taken := less, taken + [kind.value];
    }
    if rest != map[] {
      assert rest.Keys != {};
      var k :| k in rest.Keys;
      assert k in table && !(1 <= k <= 9);
      return None;
    }
    assert rest.Keys == {};
    return Some(taken);
  }

  lemma {:induction false} TableFitsIff(table: map<nat, Value>, fields: seq<Field>)
    requires Distinct(fields) && Tabulates(table, fields)
    ensures TableFits(table) <==> Decodable(fields)
  {
    if TableFits(table) {
      forall i | 0 <= i < |fields|
        ensures FieldFits(fields[i])
      {
        assert EntryFits(table, fields[i].id.value);
      }
      forall id | 1 <= id <= 9
        ensures HasField(fields, id)
      {
        assert EntryFits(table, id);
      }
    }
    if Decodable(fields) {
      forall id | 1 <= id <= 9
        ensures EntryFits(table, id)
      {
        assert HasField(fields, id);
        var i :| 0 <= i < |fields| && fields[i].id == Some(id);
        assert FieldFits(fields[i]);
      }
      forall id | id in table
        ensures 1 <= id <= 9
      {
        var i :| 0 <= i < |fields| && fields[i].id == Some(id);
        assert FieldFits(fields[i]);
      }
    }
  }

  // --- decoding ------------------------------------------------------------

  /** The ticket whose nine fields are these kinds, in number order. */
  function TicketOf(kinds: seq<Kind>): Ticket
    requires |kinds| == 9 && forall i :: 0 <= i < 9 ==> KindFits(i + 1, kinds[i])
  {
    assert KindFits(1, kinds[0]) && KindFits(2, kinds[1]) && KindFits(3, kinds[2]) && KindFits(4, kinds[3])
           && KindFits(5, kinds[4]);
    assert KindFits(6, kinds[5]) && KindFits(7, kinds[6]) && KindFits(8, kinds[7]) && KindFits(9, kinds[8]);
    Ticket(kinds[0].text, kinds[1].name, Format(kinds[2].bytes, 16), kinds[3].at, Format(kinds[4].bytes, 16),
           kinds[5].at,
           Format(kinds[6].bytes, 16), Format(kinds[7].bytes, 16), Format(kinds[8].bytes, 16))
  }

  ghost predicate Carries(fields: seq<Field>, kinds: seq<Kind>) {
    && |kinds| == 9 && (forall i :: 0 <= i < 9 ==> KindFits(i + 1, kinds[i]))
    && forall j :: 0 <= j < |fields| ==>
        FieldFits(fields[j]) && fields[j].value.value.kind == Some(kinds[fields[j].id.value - 1])
  }

  /** Accepts exactly the decodable records, and builds the ticket from what they carry. */
  method Decode(value: Value) returns (t: Option<Ticket>, ghost kinds: seq<Kind>)
    ensures t.Some? <==> value.kind.Some? && value.kind.value.RecordValue? && Decodable(value.kind.value.fields)
    ensures t.Some? ==> Carries(value.kind.value.fields, kinds) && t.value == TicketOf(kinds)
  {
    kinds := [];
    var table := RecordFields(value);
    if table.None? {
      return None, kinds;
    }
    ghost var fields := value.kind.value.fields;
    TableFitsIff(table.value, fields);
    var taken := TakeAll(table.value);
    if taken.None? {
      return None, kinds;
    }
    kinds := taken.value;
    forall i | 0 <= i < 9
      ensures KindFits(i + 1, kinds[i])
    {
      assert EntryFits(table.value, i + 1);
    }
    t := Some(TicketOf(taken.value));
  }

  // --- round trip ----------------------------------------------------------

  /** The ticket with its identifiers rewritten in canonical form. */
  function Canonized(t: Ticket): Ticket
    requires Encodable(t)
  {
    t.(ticket := Format(Parse(t.ticket), 16), project := Format(Parse(t.project), 16),
       assignee := Format(Parse(t.assignee), 16), reporter := Format(Parse(t.reporter), 16),
       organization := Format(Parse(t.organization), 16))
  }

  predicate AllCanonical(t: Ticket) {
    Canonical(t.ticket) && Canonical(t.project) && Canonical(t.assignee) && Canonical(t.reporter)
    && Canonical(t.organization)
  }

  lemma {:induction false} CanonizedIff(t: Ticket)
    requires Encodable(t)
    ensures Canonized(t) == t <==> AllCanonical(t)
  {
    FormatParseIff(t.ticket);
    FormatParseIff(t.project);
    FormatParseIff(t.assignee);
    FormatParseIff(t.reporter);
    FormatParseIff(t.organization);
  }

  ghost predicate Shuffled(fields: seq<Field>, original: seq<Field>) {
    multiset(fields) == multiset(original)
  }

  lemma {:induction false} TwiceIn(fields: seq<Field>, i: nat, j: nat)
    requires i < j < |fields| && fields[i] == fields[j]
    ensures multiset(fields)[fields[i]] >= 2
  {
    assert fields == fields[..j] + [fields[j]] + fields[j + 1..];
    assert fields[..j][i] == fields[i];
    assert fields[i] in multiset(fields[..j]);
  }

  lemma {:induction false} OnceIn(t: Ticket, id: nat)
    requires Encodable(t) && 1 <= id <= 9
    ensures multiset(Fields(t))[Fields(t)[id - 1]] == 1
  {
    var fields := Fields(t);
    var f := fields[id - 1];
    assert fields == fields[..id - 1] + [f] + fields[id..];
    assert f !in fields[..id - 1] && f !in fields[id..];
    assert f !in multiset(fields[..id - 1]) && f !in multiset(fields[id..]);
  }

  /** A shuffled field is the original field of its number, and the only one. */
  lemma {:induction false} ShuffledField(t: Ticket, fields: seq<Field>, i: nat)
    requires Encodable(t) && Shuffled(fields, Fields(t)) && i < |fields|
    ensures fields[i].id.Some? && 1 <= fields[i].id.value <= 9
    ensures fields[i] == Plain(fields[i].id.value, Written(t, fields[i].id.value))
  {
    assert fields[i] in multiset(fields);
    assert fields[i] in Fields(t);
  }

  lemma {:induction false} ShuffledDistinct(t: Ticket, fields: seq<Field>)
    requires Encodable(t) && Shuffled(fields, Fields(t))
    ensures Distinct(fields)
  {
    forall i | 0 <= i < |fields|
      ensures Numbered(fields[i])
    {
      ShuffledField(t, fields, i);
    }
    forall i, j | 0 <= i < j < |fields|
      ensures fields[i].id != fields[j].id
    {
      ShuffledField(t, fields, i);
      ShuffledField(t, fields, j);
      if fields[i].id == fields[j].id {
        TwiceIn(fields, i, j);
        OnceIn(t, fields[i].id.value);
        assert false;
      }
    }
  }

  lemma {:induction false} WrittenFits(t: Ticket, id: nat)
    requires Encodable(t) && 1 <= id <= 9
    ensures KindFits(id, Written(t, id)) <==> (id == 2 ==> t.status != [])
  {
  }

  lemma {:induction false} ShuffledDecodable(t: Ticket, fields: seq<Field>)
    requires Encodable(t) && Shuffled(fields, Fields(t))
    ensures Decodable(fields) <==> t.status != []
  {
    ShuffledDistinct(t, fields);
    forall id | 1 <= id <= 9
      ensures HasField(fields, id)
    {
      assert Fields(t)[id - 1] in multiset(fields);
      var i :| 0 <= i < |fields| && fields[i] == Fields(t)[id - 1];
      assert fields[i].id == Some(id);
    }
    forall i | 0 <= i < |fields|
      ensures FieldFits(fields[i]) <==> (fields[i].id.value == 2 ==> t.status != [])
      ensures fields[i].id.Some?
    {
      ShuffledField(t, fields, i);
      WrittenFits(t, fields[i].id.value);
    }
    assert HasField(fields, 2);
  }

  lemma {:induction false} ShuffledCarries(t: Ticket, fields: seq<Field>, kinds: seq<Kind>)
    requires Encodable(t) && Shuffled(fields, Fields(t)) && Carries(fields, kinds) && t.status != []
    ensures TicketOf(kinds) == Canonized(t)
  {
    forall id | 1 <= id <= 9
      ensures kinds[id - 1] == Written(t, id)
    {
      assert Fields(t)[id - 1] in multiset(fields);
      var j :| 0 <= j < |fields| && fields[j] == Fields(t)[id - 1];
    }
    assert kinds[0] == Written(t, 1) && kinds[1] == Written(t, 2) && kinds[2] == Written(t, 3)
           && kinds[3] == Written(t, 4);
    assert kinds[4] == Written(t, 5) && kinds[5] == Written(t, 6) && kinds[6] == Written(t, 7)
           && kinds[7] == Written(t, 8);
    assert kinds[8] == Written(t, 9);
  }

  /**
   * Encode a ticket, shuffle its fields in any way, decode them. It comes back exactly
   * when its status is not empty, and comes back unchanged exactly when, besides, all its
   * identifiers were in canonical form.
   */
  method RoundTrip(t: Ticket, fields: seq<Field>) returns (back: Option<Ticket>)
    requires Encodable(t) && Shuffled(fields, Fields(t))
    ensures back.Some? <==> t.status != []
    ensures back.Some? ==> back.value == Canonized(t)
    ensures back == Some(t) <==> t.status != [] && AllCanonical(t)
  {
    ghost var kinds;
    ShuffledDecodable(t, fields);
    CanonizedIff(t);
    back, kinds := Decode(Value(Some(RecordValue(fields))));
    if back.Some? {
      ShuffledCarries(t, fields, kinds);
    }
  }
}
