/** The AUTOR table as `postAutor`, `putAutor` and `deleteAutor` change it.
    Statements are counted from 0 (BEGIN) for the fault oracle `failAt`; the
    catch issues ROLLBACK, so a failure leaves the table as it was. */
module Authors {
  import opened Common

  /** The fields of the request body the controllers read. */
  datatype AuthorBody = AuthorBody(codigoautor: Option<Value>, nome: Option<Value>,
                                   observacao: Option<Value>, situacao: Option<Value>)

  /** A stored row; `None` is SQL NULL, and a `situacao` of None on insert is the column default. */
  datatype Author = Author(id: int, name: Option<Value>, note: Option<Value>, situacao: Option<Value>)

  /** The reply's data: the stored row (if the statement returned one), `sync`,
      and `codigoautortemp` on insert. */
  datatype Reply = Reply(row: Option<Author>, sync: int, tempId: Option<Value>)

  /** `observacao ? (observacao.length > 0 ? observacao : null) : null`: a number
      has no `length`, so only a non-empty string survives. */
  function StoredNote(observacao: Option<Value>): (r: Option<Value>)
    ensures r.Some? <==> observacao.Some? && observacao.value.Str? && observacao.value.s != []
    ensures r.Some? ==> r == observacao
  {
    if observacao.Some? && Truthy(observacao.value) then
      (if observacao.value.Str? && |observacao.value.s| > 0 then observacao else None)
    else None
  }

  /** Normalising a stored note again changes nothing. */
  lemma StoredNoteIdempotent(observacao: Option<Value>)
    ensures StoredNote(StoredNote(observacao)) == StoredNote(observacao)
  {
  }

  /** The row `postAutor` inserts under `id`. */
  function Inserted(body: AuthorBody, id: int): (a: Author)
    ensures a.id == id && a.name == body.nome && a.note == StoredNote(body.observacao) && a.situacao.None?
  {
    Author(id, body.nome, StoredNote(body.observacao), None)
  }

  /** `UPDATE AUTOR SET NOME = $1, OBSERVACAO = $2, SITUACAO = $3 WHERE CODIGOAUTOR = $4`:
      the note is written as sent, without the insert's normalisation. */
  function Updated(rows: map<int, Author>, body: AuthorBody): (r: map<int, Author>)
    requires KeyOf(body.codigoautor) != BadKey
    ensures r.Keys == rows.Keys
    ensures forall id :: id in rows && KeyOf(body.codigoautor) != Key(id) ==> r[id] == rows[id]
    ensures forall id :: id in rows && KeyOf(body.codigoautor) == Key(id) ==>
      r[id] == Author(id, body.nome, body.observacao, body.situacao)
  {
    var k := KeyOf(body.codigoautor);
    if k.Key? && k.id in rows then rows[k.id := Author(k.id, body.nome, body.observacao, body.situacao)] else rows
  }

  /** `DELETE FROM AUTOR WHERE CODIGOAUTOR = $1`. */
  function Removed(rows: map<int, Author>, k: Key): (r: map<int, Author>)
    ensures forall id :: id in r <==> id in rows && k != Key(id)
    ensures forall id :: id in r ==> r[id] == rows[id]
  {
    if k.Key? then rows - {k.id} else rows
  }

  /** The row a key selects, as `RETURNING *` hands it back. */
  function RowAt(rows: map<int, Author>, k: Key): (r: Option<Author>)
    ensures r.Some? <==> k.Key? && k.id in rows
    ensures r.Some? ==> r.value == rows[k.id]
  {
    if k.Key? && k.id in rows then Some(rows[k.id]) else None
  }

  /** Insert then delete by the new id restores the table. */
  lemma InsertThenRemove(rows: map<int, Author>, body: AuthorBody, id: int)
    requires id !in rows
    ensures Removed(rows[id := Inserted(body, id)], Key(id)) == rows
  {
  }

  /** The empty note sent on update is stored as is, while the insert stores NULL. */
  lemma UpdateKeepsEmptyNote(rows: map<int, Author>)
    requires 1 in rows
    ensures Updated(rows, AuthorBody(Some(Num(1)), None, Some(Str("")), None))[1].note == Some(Str(""))
    ensures Inserted(AuthorBody(None, None, Some(Str("")), None), 1).note.None?
  {
  }

  class AuthorTable {
    var rows: map<int, Author>
    var nextId: int

    predicate Valid()
      reads this
    {
      forall id :: id in rows ==> rows[id].id == id && id < nextId
    }

    constructor ()
      ensures Valid() && rows == map[]
    {
      rows := map[];
      nextId := 1;
    }

    /** `postAutor`: 400 without a body, then the token gate, then BEGIN (0),
        INSERT (1), COMMIT (2). */
    method Post(body: Option<AuthorBody>, token: Option<string>, verified: Option<Claims>, failAt: Option<nat>)
      returns (code: int, reply: Option<Reply>)
      requires Valid()
      modifies this
      ensures Valid()
      ensures body.None? ==> code == BAD_REQUEST
      ensures body.Some? && TokenGate(token, verified).Some? ==> code == UNAUTHORIZED
      ensures body.Some? && TokenGate(token, verified).None? && !(failAt.Some? && failAt.value <= 2) ==>
        code == OK && rows == old(rows)[old(nextId) := Inserted(body.value, old(nextId))] &&
        reply == Some(Reply(Some(Inserted(body.value, old(nextId))), 0, body.value.codigoautor))
      ensures body.Some? && TokenGate(token, verified).None? && failAt.Some? && failAt.value <= 2 ==> code == SERVER_ERROR
      ensures code != OK ==> rows == old(rows) && reply.None?
    {
      reply := None;
      if body.None? {
        return BAD_REQUEST, None;
      }
      var gate := TokenGate(token, verified);
      if gate.Some? {
        return gate.value, None;
      }
      var saved := rows;
      if Raises(failAt, 0) || Raises(failAt, 1) {
        return SERVER_ERROR, None;
      }
      var id := nextId;
      var row := Inserted(body.value, id);
      nextId := nextId + 1;
      rows := rows[id := row];
      if Raises(failAt, 2) {
        rows := saved;
        return SERVER_ERROR, None;
      }
      code := OK;
      reply := Some(Reply(Some(row), 0, body.value.codigoautor));
    }

    /** `putAutor`: 400 without a body, the token gate, then BEGIN (0),
        UPDATE (1), COMMIT (2); the reply is the updated row plus `sync` 0. */
    method Put(body: Option<AuthorBody>, token: Option<string>, verified: Option<Claims>, failAt: Option<nat>)
      returns (code: int, reply: Option<Reply>)
      requires Valid()
      modifies this
      ensures Valid() && nextId == old(nextId)
      ensures body.None? ==> code == BAD_REQUEST
      ensures body.Some? && TokenGate(token, verified).Some? ==> code == UNAUTHORIZED
      ensures body.Some? && TokenGate(token, verified).None? &&
              (KeyOf(body.value.codigoautor) == BadKey || (failAt.Some? && failAt.value <= 2)) ==>
        code == SERVER_ERROR
      ensures body.Some? && TokenGate(token, verified).None? && KeyOf(body.value.codigoautor) != BadKey &&
              !(failAt.Some? && failAt.value <= 2) ==>
        code == OK && rows == Updated(old(rows), body.value) &&
        reply == Some(Reply(RowAt(rows, KeyOf(body.value.codigoautor)), 0, None))
      ensures code != OK ==> rows == old(rows) && reply.None?
    {
      reply := None;
      if body.None? {
        return BAD_REQUEST, None;
      }
      var gate := TokenGate(token, verified);
      if gate.Some? {
        return gate.value, None;
      }
      var saved := rows;
      var k := KeyOf(body.value.codigoautor);
      if Raises(failAt, 0) || k == BadKey || Raises(failAt, 1) {
        return SERVER_ERROR, None;
      }
      rows := Updated(rows, body.value);
      if Raises(failAt, 2) {
        rows := saved;
        return SERVER_ERROR, None;
      }
      code := OK;
      reply := Some(Reply(RowAt(rows, k), 0, None));
    }

    /** `deleteAutor`: destructuring a missing body throws before the handler's
        try (500); no `autor` gives 400; then the gate, BEGIN (0), DELETE (1), COMMIT (2). */
    method Delete(body: Payload<AuthorBody>, token: Option<string>, verified: Option<Claims>, failAt: Option<nat>)
      returns (code: int)
      requires Valid()
      modifies this
      ensures Valid() && nextId == old(nextId)
      ensures body.NoBody? ==> code == SERVER_ERROR
      ensures body.Body? && body.item.None? ==> code == BAD_REQUEST
      ensures body.Body? && body.item.Some? && TokenGate(token, verified).Some? ==> code == UNAUTHORIZED
      ensures body.Body? && body.item.Some? && TokenGate(token, verified).None? &&
              KeyOf(body.item.value.codigoautor) != BadKey && !(failAt.Some? && failAt.value <= 2) ==>
        code == OK && rows == Removed(old(rows), KeyOf(body.item.value.codigoautor))
      ensures body.Body? && body.item.Some? && TokenGate(token, verified).None? &&
              (KeyOf(body.item.value.codigoautor) == BadKey || (failAt.Some? && failAt.value <= 2)) ==>
        code == SERVER_ERROR
      ensures code != OK ==> rows == old(rows)
    {
      if body.NoBody? {
        return SERVER_ERROR;
      }
      if body.item.None? {
        return BAD_REQUEST;
      }
      var gate := TokenGate(token, verified);
      if gate.Some? {
        return gate.value;
      }
      var saved := rows;
      var k := KeyOf(body.item.value.codigoautor);
      if Raises(failAt, 0) || k == BadKey || Raises(failAt, 1) {
        return SERVER_ERROR;
      }
      rows := Removed(rows, k);
      if Raises(failAt, 2) {
        rows := saved;
        return SERVER_ERROR;
      }
      code := OK;
    }
  }
}
