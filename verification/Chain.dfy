/** What one ledger row hashes, and why that hash pins the row.

    Both ledgers (audit.event and core.evidence_custody) hash the previous row's
    hash and every payload column, joined by chr(31).  SHA-256 is idealised as a
    free constructor: a digest is its message, so equal digests mean equal messages
    and no digest occurs inside its own message.  A digest written in hex, and a
    timestamp written to the microsecond in UTC, are each one symbol of that message.
 */
module Chain {
  import opened Options

  /** chr(31), the field separator. */
  const SEP: char := 31 as char

  datatype Symbol = Ch(c: char) | Stamp(micros: nat) | Hex(digest: Digest)
  type Text = seq<Symbol>
  datatype Digest = Sha256(message: seq<Symbol>)

  // The typed columns: what Postgres prints for them never holds the separator and is never "-".
  type Uuid = s: string | |s| == 36 && SEP !in s witness "00000000-0000-0000-0000-000000000000"
  type Hexadecimal = s: string | SEP !in s && '-' !in s
  /** jsonb prints every control character as an escape. */
  type JsonText = s: string | SEP !in s

  datatype Payload =
    | Audit(occurredAt: nat, actorId: Option<Uuid>, actorKind: string, action: string,
            objectType: Option<string>, objectId: Option<Uuid>, caseId: Option<Uuid>,
            outcome: string, detail: JsonText, ipHash: Option<Hexadecimal>, sessionId: Option<Uuid>)
    | Custody(evidenceId: Uuid, action: string, actorId: Option<Uuid>, occurredAt: nat,
              detail: JsonText, hashVerified: Option<bool>)

  /** One row without its number: seq and id are not hashed. */
  datatype Row = Row(payload: Payload, prevHash: Option<Digest>, rowHash: Digest)

  /** No free-text column holds the separator, and no optional text is the literal "-". */
  predicate Clean(p: Payload) {
    match p
    case Audit(_, _, kind, action, objectType, _, _, outcome, _, _, _) =>
      SEP !in kind && SEP !in action && SEP !in outcome &&
      (objectType.Some? ==> SEP !in objectType.value && objectType.value != "-")
    case Custody(_, action, _, _, _, _) => SEP !in action
  }

  function AtTime(p: Payload, time: nat): Payload {
    match p
    case Audit(_, actor, kind, action, objectType, objectId, caseId, outcome, detail, ip, session) =>
      Audit(time, actor, kind, action, objectType, objectId, caseId, outcome, detail, ip, session)
    case Custody(evidence, action, actor, _, detail, verified) =>
      Custody(evidence, action, actor, time, detail, verified)
  }

  function Lift(s: string): (t: Text)
    ensures |t| == |s|
    ensures forall i :: 0 <= i < |s| ==> t[i] == Ch(s[i])
  {
    seq(|s|, i requires 0 <= i < |s| => Ch(s[i]))
  }

  /** coalesce(column, '-') */
  function OrDash(o: Option<string>): string {
    if o.None? then "-" else o.value
  }

  /** coalesce(hash_verified::text, '-') */
  function VerifiedText(o: Option<bool>): string {
    if o.None? then "-" else if o.value then "true" else "false"
  }

  function PrevField(prev: Option<Digest>): Text {
    if prev.None? then Lift("GENESIS") else [Hex(prev.value)]
  }

  function Fields(p: Payload): seq<Text> {
    match p
    case Audit(at, actor, kind, action, objectType, objectId, caseId, outcome, detail, ip, session) =>
      [[Stamp(at)], Lift(OrDash(actor)), Lift(kind), Lift(action), Lift(OrDash(objectType)),
       Lift(OrDash(objectId)), Lift(OrDash(caseId)), Lift(outcome), Lift(detail),
       Lift(OrDash(ip)), Lift(OrDash(session))]
    case Custody(evidence, action, actor, at, detail, verified) =>
      [Lift(evidence), Lift(action), Lift(OrDash(actor)), [Stamp(at)], Lift(detail),
       Lift(VerifiedText(verified))]
  }

  /** concat_ws(chr(31), ...): every argument is non-null here. */
  function ConcatWs(fields: seq<Text>): Text {
    if |fields| == 0 then []
    else if |fields| == 1 then fields[0]
    else fields[0] + [Ch(SEP)] + ConcatWs(fields[1..])
  }

  function HashOf(prev: Option<Digest>, p: Payload): Digest {
    Sha256(ConcatWs([PrevField(prev)] + Fields(p)))
  }

  function RowAfter(prev: Option<Digest>, p: Payload): Row {
    Row(p, prev, HashOf(prev, p))
  }

  predicate ContentOk(r: Row) {
    r.rowHash == HashOf(r.prevHash, r.payload)
  }

  /** The position on a chain that a row hash stands for: 1 for a first row. */
  ghost function Depth(d: Digest): nat {
    if |d.message| > 0 && d.message[0].Hex? then 1 + Depth(d.message[0].digest) else 1
  }

  lemma DepthOf(prev: Option<Digest>, p: Payload)
    ensures Depth(HashOf(prev, p)) == if prev.None? then 1 else 1 + Depth(prev.value)
  {
    var fields := [PrevField(prev)] + Fields(p);
    assert ConcatWs(fields) == fields[0] + [Ch(SEP)] + ConcatWs(fields[1..]);
    assert HashOf(prev, p).message[0] == PrevField(prev)[0];
  }

  // ---- The encoding is injective ----

  predicate Unseparated(t: Text) {
    Ch(SEP) !in t
  }

  lemma LiftInjective(s: string, t: string)
    requires Lift(s) == Lift(t)
    ensures s == t
  {
    assert |s| == |t|;
    forall i | 0 <= i < |s| ensures s[i] == t[i] {
      assert Lift(s)[i] == Lift(t)[i];
    }
  }

  lemma JoinStep(first: Text, rest: seq<Text>)
    requires |rest| >= 1
    ensures ConcatWs([first] + rest) == first + [Ch(SEP)] + ConcatWs(rest)
  {
    assert ([first] + rest)[1..] == rest;
  }

  /** Where the first field of a join ends. */
  ghost function FirstSep(t: Text): (n: nat)
    ensures n <= |t|
  {
    if |t| == 0 || t[0] == Ch(SEP) then 0 else 1 + FirstSep(t[1..])
  }

  lemma FirstSepAt(field: Text, rest: Text)
    requires Unseparated(field) && (rest == [] || rest[0] == Ch(SEP))
    ensures FirstSep(field + rest) == |field|
  {
    if field == [] {
      assert field + rest == rest;
    } else {
      assert (field + rest)[1..] == field[1..] + rest;
      FirstSepAt(field[1..], rest);
    }
  }

  lemma JoinSplits(fields: seq<Text>)
    requires |fields| >= 1 && Unseparated(fields[0])
    ensures var t := ConcatWs(fields);
            FirstSep(t) == |fields[0]| && t[..FirstSep(t)] == fields[0] &&
            (FirstSep(t) == |t| <==> |fields| == 1) &&
            (|fields| > 1 ==> t[FirstSep(t) + 1..] == ConcatWs(fields[1..]))
  {
    if |fields| == 1 {
      FirstSepAt(fields[0], []);
      assert fields[0] + [] == fields[0];
    } else {
      FirstSepAt(fields[0], [Ch(SEP)] + ConcatWs(fields[1..]));
      assert ConcatWs(fields) == fields[0] + ([Ch(SEP)] + ConcatWs(fields[1..]));
    }
  }

  /** Two joins of separator-free fields are equal only field by field. */
  lemma {:induction false} ConcatWsInjective(xs: seq<Text>, ys: seq<Text>)
    requires |xs| >= 1 && |ys| >= 1
    requires forall x :: x in xs ==> Unseparated(x)
    requires forall y :: y in ys ==> Unseparated(y)
    requires ConcatWs(xs) == ConcatWs(ys)
    ensures xs == ys
  {
    JoinSplits(xs);
    JoinSplits(ys);
    if |xs| > 1 {
      ConcatWsInjective(xs[1..], ys[1..]);
      assert xs == [xs[0]] + xs[1..] && ys == [ys[0]] + ys[1..];
    }
  }

  lemma LiftUnseparated(s: string)
    requires SEP !in s
    ensures Unseparated(Lift(s))
  {
  }

  lemma PrevUnseparated(prev: Option<Digest>)
    ensures Unseparated(PrevField(prev))
  {
    LiftUnseparated("GENESIS");
  }

  lemma FieldsUnseparated(p: Payload)
    requires Clean(p)
    ensures forall f :: f in Fields(p) ==> Unseparated(f)
  {
    LiftUnseparated("-");
    match p {
      case Audit(at, actor, kind, action, objectType, objectId, caseId, outcome, detail, ip, session) =>
        LiftUnseparated(OrDash(actor));
        LiftUnseparated(kind);
        LiftUnseparated(action);
        LiftUnseparated(OrDash(objectType));
        LiftUnseparated(OrDash(objectId));
        LiftUnseparated(OrDash(caseId));
        LiftUnseparated(outcome);
        LiftUnseparated(detail);
        LiftUnseparated(OrDash(ip));
        LiftUnseparated(OrDash(session));
      case Custody(evidence, action, actor, at, detail, verified) =>
        LiftUnseparated(evidence);
        LiftUnseparated(action);
        LiftUnseparated(OrDash(actor));
        LiftUnseparated(detail);
        LiftUnseparated(VerifiedText(verified));
    }
  }

  /** An optional column whose value is never the literal "-" is pinned by its rendering. */
  lemma OrDashInjective(a: Option<string>, b: Option<string>)
    requires a != Some("-") && b != Some("-")
    requires Lift(OrDash(a)) == Lift(OrDash(b))
    ensures a == b
  {
    LiftInjective(OrDash(a), OrDash(b));
  }

  lemma FieldsInjective(p: Payload, q: Payload)
    requires Clean(p) && Clean(q) && Fields(p) == Fields(q)
    ensures p == q
  {
    var f, g := Fields(p), Fields(q);
    assert |f| == |g|;
    if p.Audit? {
      assert q.Audit?;
      assert f[0] == g[0] && f[0][0] == g[0][0];
      OrDashInjective(p.actorId, q.actorId) by { assert f[1] == g[1]; }
      LiftInjective(p.actorKind, q.actorKind) by { assert f[2] == g[2]; }
      LiftInjective(p.action, q.action) by { assert f[3] == g[3]; }
      OrDashInjective(p.objectType, q.objectType) by { assert f[4] == g[4]; }
      OrDashInjective(p.objectId, q.objectId) by { assert f[5] == g[5]; }
      OrDashInjective(p.caseId, q.caseId) by { assert f[6] == g[6]; }
      LiftInjective(p.outcome, q.outcome) by { assert f[7] == g[7]; }
      LiftInjective(p.detail, q.detail) by { assert f[8] == g[8]; }
      OrDashInjective(p.ipHash, q.ipHash) by { assert f[9] == g[9]; }
      OrDashInjective(p.sessionId, q.sessionId) by { assert f[10] == g[10]; }
    } else {
      assert q.Custody?;
      LiftInjective(p.evidenceId, q.evidenceId) by { assert f[0] == g[0]; }
      LiftInjective(p.action, q.action) by { assert f[1] == g[1]; }
      OrDashInjective(p.actorId, q.actorId) by { assert f[2] == g[2]; }
      assert f[3] == g[3] && f[3][0] == g[3][0];
      LiftInjective(p.detail, q.detail) by { assert f[4] == g[4]; }
      VerifiedInjective(p.hashVerified, q.hashVerified) by { assert f[5] == g[5]; }
    }
  }

  lemma VerifiedInjective(a: Option<bool>, b: Option<bool>)
    requires Lift(VerifiedText(a)) == Lift(VerifiedText(b))
    ensures a == b
  {
    LiftInjective(VerifiedText(a), VerifiedText(b));
    assert "-"[0] == '-' && "true"[0] == 't' && "false"[0] == 'f';
  }

  /** A clean row's hash pins its predecessor's hash and every payload column. */
  lemma HashInjective(p: Option<Digest>, x: Payload, q: Option<Digest>, y: Payload)
    requires Clean(x) && Clean(y)
    requires HashOf(p, x) == HashOf(q, y)
    ensures p == q && x == y
  {
    FieldsUnseparated(x);
    FieldsUnseparated(y);
    LiftUnseparated("GENESIS");
    var xs, ys := [PrevField(p)] + Fields(x), [PrevField(q)] + Fields(y);
    assert forall f :: f in xs ==> Unseparated(f);
    ConcatWsInjective(xs, ys);
    assert xs[0] == ys[0] && xs[1..] == Fields(x) && ys[1..] == Fields(y);
    assert PrevField(p)[0] == PrevField(q)[0];
    FieldsInjective(x, y);
  }

  /** The n-th column of a message, counted from 0, read back at its separators. */
  ghost function Column(t: Text, n: nat): Text
    decreases n
  {
    var end := FirstSep(t);
    if n == 0 then t[..end] else if end == |t| then [] else Column(t[end + 1..], n - 1)
  }

  /** How many columns a message has. */
  ghost function Columns(t: Text): nat
    decreases |t|
  {
    var end := FirstSep(t);
    if end == |t| then 1 else 1 + Columns(t[end + 1..])
  }

  lemma {:induction false} ColumnIsField(fields: seq<Text>, n: nat)
    requires n < |fields| && forall f :: f in fields ==> Unseparated(f)
    ensures Column(ConcatWs(fields), n) == fields[n]
    ensures Columns(ConcatWs(fields)) == |fields|
  {
    hide FirstSep, ConcatWs, Unseparated;
    JoinSplits(fields);
    if |fields| > 1 {
      ColumnIsField(fields[1..], if n == 0 then 0 else n - 1);
    }
  }

  lemma MessageColumns(prev: Option<Digest>, p: Payload)
    requires Clean(p)
    ensures var t := HashOf(prev, p).message;
      && Column(t, 0) == PrevField(prev) && Columns(t) == 1 + |Fields(p)|
      && forall n :: 0 <= n < |Fields(p)| ==> Column(t, 1 + n) == Fields(p)[n]
  {
    hide ConcatWs, Column, Columns, Unseparated, Clean, PrevField, Fields;
    FieldsUnseparated(p);
    PrevUnseparated(prev);
    var fields := [PrevField(prev)] + Fields(p);
    forall n | 0 <= n < |fields|
      ensures Column(ConcatWs(fields), n) == fields[n] && Columns(ConcatWs(fields)) == |fields|
    {
      ColumnIsField(fields, n);
    }
    assert ConcatWs(fields) == HashOf(prev, p).message && fields[0] == PrevField(prev);
    assert forall n :: 0 <= n < |Fields(p)| ==> fields[1 + n] == Fields(p)[n];
  }

  ghost predicate ReadsAs(t: Text, column: nat, text: string) {
    Column(t, column) == Lift(text)
  }

  ghost predicate ReadsAsOptional(t: Text, column: nat, value: Option<string>) {
    ReadsAs(t, column, if value.Some? then value.value else "-")
  }

  /** A clean row's message read back: the predecessor's hash, or GENESIS, then each column of its ledger at its place. */
  lemma MessageReadsBack(prev: Option<Digest>, p: Payload)
    requires Clean(p)
    ensures var t := HashOf(prev, p).message;
      && (if prev.Some? then Column(t, 0) == [Hex(prev.value)] else ReadsAs(t, 0, "GENESIS"))
      && (p.Audit? ==>
            && Columns(t) == 12
            && Column(t, 1) == [Stamp(p.occurredAt)] && ReadsAsOptional(t, 2, p.actorId) && ReadsAs(t, 3, p.actorKind)
            && ReadsAs(t, 4, p.action) && ReadsAsOptional(t, 5, p.objectType) && ReadsAsOptional(t, 6, p.objectId)
            && ReadsAsOptional(t, 7, p.caseId) && ReadsAs(t, 8, p.outcome) && ReadsAs(t, 9, p.detail)
            && ReadsAsOptional(t, 10, p.ipHash) && ReadsAsOptional(t, 11, p.sessionId))
      && (p.Custody? ==>
            && Columns(t) == 7
            && ReadsAs(t, 1, p.evidenceId) && ReadsAs(t, 2, p.action) && ReadsAsOptional(t, 3, p.actorId)
            && Column(t, 4) == [Stamp(p.occurredAt)] && ReadsAs(t, 5, p.detail)
            && (match p.hashVerified case None => ReadsAs(t, 6, "-") case Some(b) => ReadsAs(t, 6, if b then "true" else "false")))
  {
    hide HashOf, Column, Columns, Lift, Clean;
    MessageColumns(prev, p);
    var t, f := HashOf(prev, p).message, Fields(p);
    assert Column(t, 1) == f[0] && Column(t, 2) == f[1] && Column(t, 3) == f[2] && Column(t, 4) == f[3] && Column(t, 5) == f[4];
    if p.Audit? {
      assert Column(t, 6) == f[5] && Column(t, 7) == f[6] && Column(t, 8) == f[7] && Column(t, 9) == f[8];
      assert Column(t, 10) == f[9] && Column(t, 11) == f[10];
    } else {
      assert Column(t, 6) == f[5];
    }
  }

  lemma SeparatorMoves(at: nat, outcome: string, detail: JsonText, prev: Option<Digest>)
    ensures HashOf(prev, Audit(at, None, "U", [SEP] + "A", None, None, None, outcome, detail, None, None)) ==
            HashOf(prev, Audit(at, None, "U" + [SEP], "A", None, None, None, outcome, detail, None, None))
  {
    var x := Fields(Audit(at, None, "U", [SEP] + "A", None, None, None, outcome, detail, None, None));
    var y := Fields(Audit(at, None, "U" + [SEP], "A", None, None, None, outcome, detail, None, None));
    hide ConcatWs;
    var before := [PrevField(prev), [Stamp(at)], Lift("-")];
    ShiftedBoundary(before, Lift("U"), [Ch(SEP)], Lift("A"), x[4..]);
    assert x[2] == Lift("U") && y[2] == Lift("U" + [SEP]) == Lift("U") + [Ch(SEP)];
    assert x[3] == Lift([SEP] + "A") == [Ch(SEP)] + Lift("A") && y[3] == Lift("A");
    assert x[4..] == y[4..];
    assert [PrevField(prev)] + x == before + [x[2], x[3]] + x[4..];
    assert [PrevField(prev)] + y == before + [y[2], y[3]] + y[4..];
  }

  /** Both conditions are needed: a separator inside a free-text column moves a field
      boundary, and an object type of "-" reads like none. */
  lemma UncleanRowsCollide(at: nat, outcome: string, detail: JsonText)
    ensures var a := Audit(at, None, "U", [SEP] + "A", None, None, None, outcome, detail, None, None);
            var b := Audit(at, None, "U" + [SEP], "A", None, None, None, outcome, detail, None, None);
            a != b && forall prev :: HashOf(prev, a) == HashOf(prev, b)
    ensures var a := Audit(at, None, "U", "A", None, None, None, outcome, detail, None, None);
            var b := a.(objectType := Some("-"));
            a != b && forall prev :: HashOf(prev, a) == HashOf(prev, b)
  {
    hide HashOf;
    var a := Audit(at, None, "U", [SEP] + "A", None, None, None, outcome, detail, None, None);
    var b := Audit(at, None, "U" + [SEP], "A", None, None, None, outcome, detail, None, None);
    forall prev: Option<Digest> ensures HashOf(prev, a) == HashOf(prev, b) {
      SeparatorMoves(at, outcome, detail, prev);
    }
    assert a.actorKind != b.actorKind by { assert |a.actorKind| != |b.actorKind|; }
    var c := Audit(at, None, "U", "A", None, None, None, outcome, detail, None, None);
    forall prev: Option<Digest> ensures HashOf(prev, c) == HashOf(prev, c.(objectType := Some("-"))) {
      DashReadsAsNone(c, prev);
    }
  }

  lemma DashReadsAsNone(p: Payload, prev: Option<Digest>)
    requires p.Audit? && p.objectType.None?
    ensures HashOf(prev, p) == HashOf(prev, p.(objectType := Some("-")))
  {
    assert Fields(p) == Fields(p.(objectType := Some("-")));
  }

  lemma ShiftedBoundary(before: seq<Text>, left: Text, mid: Text, right: Text, after: seq<Text>)
    requires |after| > 0 && mid == [Ch(SEP)]
    ensures ConcatWs(before + [left, mid + right] + after) == ConcatWs(before + [left + mid, right] + after)
  {
    hide ConcatWs;
    var a, b := [left, mid + right] + after, [left + mid, right] + after;
    assert a == [left] + ([mid + right] + after) && b == [left + mid] + ([right] + after);
    JoinStep(left, [mid + right] + after);
    JoinStep(mid + right, after);
    JoinStep(left + mid, [right] + after);
    JoinStep(right, after);
    assert ConcatWs(a) == ConcatWs(b);
    JoinPrefix(before, a, b);
    assert before + [left, mid + right] + after == before + a;
    assert before + [left + mid, right] + after == before + b;
  }

  lemma {:induction false} JoinPrefix(before: seq<Text>, a: seq<Text>, b: seq<Text>)
    requires |a| > 0 && |b| > 0 && ConcatWs(a) == ConcatWs(b)
    ensures ConcatWs(before + a) == ConcatWs(before + b)
  {
    if before == [] {
      assert before + a == a && before + b == b;
    } else {
      JoinPrefix(before[1..], a, b);
      assert before + a == [before[0]] + (before[1..] + a);
      assert before + b == [before[0]] + (before[1..] + b);
      JoinStep(before[0], before[1..] + a);
      JoinStep(before[0], before[1..] + b);
    }
  }
}
