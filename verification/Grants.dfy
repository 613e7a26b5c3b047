/**
 * The MAC messages behind the three kinds of token, as byte strings joined with NUL: which of them can
 * be equal. Equal tokens are equal messages, since the MAC is taken to be injective.
 */
module Grants {
  import opened Fields
  import opened Session

  lemma {:induction false} JoinInjective(a: string, b: string, s: string, t: string)
    requires NulFree(a) && NulFree(b) && Join(a, s) == Join(b, t)
    ensures a == b && s == t
  {
    FirstField(a, b, s, t);
  }

  lemma {:induction false} LabelsDiffer()
    ensures NulFree(TAKEOVER_LABEL) && NulFree(COMPLETION_LABEL) && NulFree(RECONNECT_LABEL)
    ensures TAKEOVER_LABEL != COMPLETION_LABEL && TAKEOVER_LABEL != RECONNECT_LABEL
    ensures COMPLETION_LABEL != RECONNECT_LABEL
  {
    assert TAKEOVER_LABEL[30] == '/' && COMPLETION_LABEL[30] == '-' && RECONNECT_LABEL[30] == '-';
    assert COMPLETION_LABEL[31] == 'c' && RECONNECT_LABEL[31] == 'r';
  }

  /** No token of one kind is a token of another, for any records whatever. */
  lemma {:induction false} KindsSeparate(id: Id, r: Record, id': Id, r': Record)
    requires r.client.Some? && r'.client.Some?
    ensures Capability(id, r) != ReconnectHandle(id', r')
    ensures Capability(id, r) != CompletionCapability(id', r')
    ensures ReconnectHandle(id, r) != CompletionCapability(id', r')
  {
    hide Common, ClientPart;
    LabelsDiffer();
    var m := ClientPart(r.client.value, r.generation, r.expiresAt);
    var m' := ClientPart(r'.client.value, r'.generation, r'.expiresAt);
    var d' := Join(Decimal(r'.expiresAt), Decimal(r'.completionExpiresAt));
    if Capability(id, r) == ReconnectHandle(id', r') {
      JoinInjective(TAKEOVER_LABEL, RECONNECT_LABEL, Common(id, r, m), Common(id', r', m'));
    }
    if Capability(id, r) == CompletionCapability(id', r') {
      JoinInjective(TAKEOVER_LABEL, COMPLETION_LABEL, Common(id, r, m), Common(id', r', d'));
    }
    if ReconnectHandle(id, r) == CompletionCapability(id', r') {
      JoinInjective(RECONNECT_LABEL, COMPLETION_LABEL, Common(id, r, m), Common(id', r', d'));
    }
  }

  /** The record id is the first field after the label, so it is determined; nothing is assumed of
      the intervention id or the principal. */
  lemma {:induction false} RecordsSeparate(id: Id, r: Record, id': Id, r': Record)
    requires NulFree(id) && NulFree(id')
    ensures r.client.Some? && r'.client.Some? && Capability(id, r) == Capability(id', r') ==> id == id'
    ensures r.client.Some? && r'.client.Some? && ReconnectHandle(id, r) == ReconnectHandle(id', r') ==> id == id'
    ensures CompletionCapability(id, r) == CompletionCapability(id', r') ==> id == id'
  {
    LabelsDiffer();
    if r.client.Some? && r'.client.Some? {
      var m := ClientPart(r.client.value, r.generation, r.expiresAt);
      var m' := ClientPart(r'.client.value, r'.generation, r'.expiresAt);
      if Capability(id, r) == Capability(id', r') {
        SameCommon(TAKEOVER_LABEL, id, r, m, id', r', m');
      }
      if ReconnectHandle(id, r) == ReconnectHandle(id', r') {
        SameCommon(RECONNECT_LABEL, id, r, m, id', r', m');
      }
    }
    var d := Join(Decimal(r.expiresAt), Decimal(r.completionExpiresAt));
    var d' := Join(Decimal(r'.expiresAt), Decimal(r'.completionExpiresAt));
    if CompletionCapability(id, r) == CompletionCapability(id', r') {
      SameCommon(COMPLETION_LABEL, id, r, d, id', r', d');
    }
  }

  lemma {:induction false} SameCommon(kind: string, id: Id, r: Record, m: string, id': Id, r': Record, m': string)
    requires NulFree(kind) && NulFree(id) && NulFree(id')
    requires Join(kind, Common(id, r, m)) == Join(kind, Common(id', r', m'))
    ensures id == id'
  {
    JoinInjective(kind, kind, Common(id, r, m), Common(id', r', m'));
    JoinInjective(id, id',
      Join(r.interventionId, Join(Decimal(r.epoch), Join(r.principal, m))),
      Join(r'.interventionId, Join(Decimal(r'.epoch), Join(r'.principal, m'))));
  }

  lemma {:induction false} CancelPrefix(p: string, s: string, t: string)
    requires p + s == p + t
    ensures s == t
  {
    assert s == (p + s)[|p|..] && t == (p + t)[|p|..];
  }

  /** Everything before the client part is the same for one record at two times, and cancels. */
  lemma {:induction false} CancelCommon(kind: string, id: Id, r: Record, m: string, r': Record, m': string)
    requires r.interventionId == r'.interventionId && r.epoch == r'.epoch && r.principal == r'.principal
    requires Join(kind, Common(id, r, m)) == Join(kind, Common(id, r', m'))
    ensures m == m'
  {
    var p :=
      kind + [NUL] + (id + [NUL] + (r.interventionId + [NUL] + (Decimal(r.epoch) + [NUL] + (r.principal + [NUL]))));
    assert Join(kind, Common(id, r, m)) == p + m;
    assert Join(kind, Common(id, r', m')) == p + m';
    CancelPrefix(p, m, m');
  }

  lemma {:induction false} ClientPartInjective(client: string, generation: nat, expiresAt: nat,
      client': string, generation': nat, expiresAt': nat)
    requires ClientShape(client) && ClientShape(client')
    requires ClientPart(client, generation, expiresAt) == ClientPart(client', generation', expiresAt')
    ensures client == client' && generation == generation' && expiresAt == expiresAt'
  {
    ShapedNulFree(client, 24, 128);
    ShapedNulFree(client', 24, 128);
    JoinInjective(client, client',
      Join(Decimal(generation), Decimal(expiresAt)), Join(Decimal(generation'), Decimal(expiresAt')));
    JoinInjective(Decimal(generation), Decimal(generation'), Decimal(expiresAt), Decimal(expiresAt'));
    DecimalInjective(generation, generation');
    DecimalInjective(expiresAt, expiresAt');
  }

  /** One record at two times: the fields fixed at its birth agree. */
  predicate SameBirth(r: Record, r': Record) {
    && r.interventionId == r'.interventionId && r.epoch == r'.epoch
    && r.principal == r'.principal && r.expiresAt == r'.expiresAt
  }

  /** Within a record, a capability or a reconnect handle stands for one client at one generation. */
  lemma {:induction false} GenerationsSeparate(id: Id, r: Record, r': Record)
    requires r.client.Some? && r'.client.Some? && SameBirth(r, r')
    requires ClientShape(r.client.value) && ClientShape(r'.client.value)
    ensures Capability(id, r) == Capability(id, r') <==> r.client == r'.client && r.generation == r'.generation
    ensures ReconnectHandle(id, r) == ReconnectHandle(id, r') <==>
      r.client == r'.client && r.generation == r'.generation
  {
    var m := ClientPart(r.client.value, r.generation, r.expiresAt);
    var m' := ClientPart(r'.client.value, r'.generation, r'.expiresAt);
    if Capability(id, r) == Capability(id, r') {
      CancelCommon(TAKEOVER_LABEL, id, r, m, r', m');
    }
    if ReconnectHandle(id, r) == ReconnectHandle(id, r') {
      CancelCommon(RECONNECT_LABEL, id, r, m, r', m');
    }
    if m == m' {
      ClientPartInjective(
        r.client.value, r.generation, r.expiresAt, r'.client.value, r'.generation, r'.expiresAt);
    }
  }

  /** A completion capability is the same as long as the deadline of its record is. */
  lemma {:induction false} DeadlinesSeparate(id: Id, r: Record, r': Record)
    requires SameBirth(r, r')
    ensures CompletionCapability(id, r) == CompletionCapability(id, r') <==>
            r.completionExpiresAt == r'.completionExpiresAt
  {
    if CompletionCapability(id, r) == CompletionCapability(id, r') {
      var e, d, d' := Decimal(r.expiresAt), Decimal(r.completionExpiresAt), Decimal(r'.completionExpiresAt);
      CancelCommon(COMPLETION_LABEL, id, r, Join(e, d), r', Join(e, d'));
      JoinInjective(e, e, d, d');
      DecimalInjective(r.completionExpiresAt, r'.completionExpiresAt);
    }
  }

  // ---------------------------------------------------------------- what a token says

  predicate NulFreeFields(id: Id, r: Record) {
    NulFree(id) && NulFree(r.interventionId) && NulFree(r.principal)
  }

  predicate SameSession(id: Id, r: Record, id': Id, r': Record) {
    id == id' && r.interventionId == r'.interventionId && r.epoch == r'.epoch && r.principal == r'.principal
  }

  lemma {:induction false} CommonInjective(
      kind: string, id: Id, r: Record, m: string, id': Id, r': Record, m': string)
    requires NulFree(kind) && NulFreeFields(id, r) && NulFreeFields(id', r')
    requires Join(kind, Common(id, r, m)) == Join(kind, Common(id', r', m'))
    ensures SameSession(id, r, id', r') && m == m'
  {
    hide Join, Decimal;
    var p, p' := Join(r.principal, m), Join(r'.principal, m');
    var e, e' := Join(Decimal(r.epoch), p), Join(Decimal(r'.epoch), p');
    JoinInjective(kind, kind, Common(id, r, m), Common(id', r', m'));
    JoinInjective(id, id', Join(r.interventionId, e), Join(r'.interventionId, e'));
    JoinInjective(r.interventionId, r'.interventionId, e, e');
    JoinInjective(Decimal(r.epoch), Decimal(r'.epoch), p, p');
    JoinInjective(r.principal, r'.principal, m, m');
    DecimalInjective(r.epoch, r'.epoch);
  }

  /** A capability or a handle stands for session, intervention, epoch, principal, client, generation and lease
      together, as long as no field holds a NUL. */
  lemma {:induction false} EveryFieldBound(id: Id, r: Record, id': Id, r': Record)
    requires NulFreeFields(id, r) && NulFreeFields(id', r') && r.client.Some? && r'.client.Some?
    requires ClientShape(r.client.value) && ClientShape(r'.client.value)
    ensures var same :=
        && id == id' && r.interventionId == r'.interventionId && r.epoch == r'.epoch && r.principal == r'.principal
        && r.client == r'.client && r.generation == r'.generation && r.expiresAt == r'.expiresAt;
      && (Capability(id, r) == Capability(id', r') <==> same)
      && (ReconnectHandle(id, r) == ReconnectHandle(id', r') <==> same)
  {
    LabelsDiffer();
    var m := ClientPart(r.client.value, r.generation, r.expiresAt);
    var m' := ClientPart(r'.client.value, r'.generation, r'.expiresAt);
    hide Join, Common, ClientPart, NulFreeFields;
    if Capability(id, r) == Capability(id', r') {
      CommonInjective(TAKEOVER_LABEL, id, r, m, id', r', m');
    }
    if ReconnectHandle(id, r) == ReconnectHandle(id', r') {
      CommonInjective(RECONNECT_LABEL, id, r, m, id', r', m');
    }
    if m == m' {
      ClientPartInjective(
        r.client.value, r.generation, r.expiresAt, r'.client.value, r'.generation, r'.expiresAt);
    }
    SameCommonPart(id, r, m, id', r', m');
  }

  lemma {:induction false} SameCommonPart(id: Id, r: Record, m: string, id': Id, r': Record, m': string)
    ensures SameSession(id, r, id', r') && m == m' ==> Common(id, r, m) == Common(id', r', m')
  {
  }

  /** A completion capability stands for session, intervention, epoch, principal, lease and completion deadline. */
  lemma {:induction false} CompletionFieldsBound(id: Id, r: Record, id': Id, r': Record)
    requires NulFreeFields(id, r) && NulFreeFields(id', r')
    ensures CompletionCapability(id, r) == CompletionCapability(id', r') <==>
      && id == id' && r.interventionId == r'.interventionId && r.epoch == r'.epoch && r.principal == r'.principal
      && r.expiresAt == r'.expiresAt && r.completionExpiresAt == r'.completionExpiresAt
  {
    LabelsDiffer();
    var d := Join(Decimal(r.expiresAt), Decimal(r.completionExpiresAt));
    var d' := Join(Decimal(r'.expiresAt), Decimal(r'.completionExpiresAt));
    hide Join, Common, NulFreeFields, Decimal;
    if CompletionCapability(id, r) == CompletionCapability(id', r') {
      CommonInjective(COMPLETION_LABEL, id, r, d, id', r', d');
      JoinInjective(
        Decimal(r.expiresAt), Decimal(r'.expiresAt),
        Decimal(r.completionExpiresAt), Decimal(r'.completionExpiresAt));
      DecimalInjective(r.expiresAt, r'.expiresAt);
      DecimalInjective(r.completionExpiresAt, r'.completionExpiresAt);
    }
    SameCommonPart(id, r, d, id', r', d');
  }

  /** With a NUL in a field two records of different interventions and epochs can have the same capability. */
  lemma {:induction false} NulFieldsCollide(r: Record) returns (r': Record)
    requires r.interventionId == "a" && r.epoch == 1 && r.principal == "2" + [NUL] + "b" && r.client.Some?
    ensures r'.interventionId != r.interventionId && r'.epoch != r.epoch && r'.principal != r.principal
    ensures r'.client == r.client && forall id :: Capability(id, r') == Capability(id, r)
  {
    r' := r.(interventionId := "a" + [NUL] + "1", epoch := 2, principal := "b");
    assert Decimal(1) == "1" && Decimal(2) == "2";
    forall id, m
      ensures Common(id, r', m) == Common(id, r, m)
    {
      assert Join(r'.interventionId, Join(Decimal(r'.epoch), Join(r'.principal, m))) ==
        Join(r.interventionId, Join(Decimal(r.epoch), Join(r.principal, m)));
    }
  }
}
