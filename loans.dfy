/** The loan engine: the EMPRESTIMO and EMPRESTIMO_LIVRO tables as the loan
    controllers change them. Each write operation runs BEGIN ... COMMIT; the
    statement `failAt` names raises, the catch issues ROLLBACK, and the tables
    are as before. */
module LoanEngine {
  import opened Common
  import opened LoanStatus
  import opened SqlText
  import opened Filters
  import opened LoanQueryText

  /** One element of `emprestimo.livros` in a creation request. */
  datatype BookRequest = BookRequest(book: int, lent: int, returned: int)

  datatype LoanRequest = LoanRequest(borrower: int, staff: int, loanDate: int, dueDate: int,
                                     note: Option<string>, tempId: Option<int>, books: Option<seq<BookRequest>>)

  /** One element of `emprestimo.livros` in a return request: `quantidade` copies back. */
  datatype ReturnItem = ReturnItem(book: int, quantity: int)

  datatype ReturnRequest = ReturnRequest(id: int, returnDate: Option<int>, note: Option<string>,
                                         books: Option<seq<ReturnItem>>)

  datatype RenewRequest = RenewRequest(id: int, dueDate: int, note: Option<string>)

  datatype DeleteRequest = DeleteRequest(id: int)

  /** The creation reply: the stored header, the request's books, the client's
      temporary id, and `sync` 0. */
  datatype Created = Created(header: Header, books: seq<BookRequest>, tempId: Option<int>, sync: int)

  /** The header a creation request inserts under `id`; no return date yet. */
  function NewHeader(req: LoanRequest, id: int): (h: Header)
    ensures h.id == id && h.returnDate.None?
    ensures h.borrower == req.borrower && h.staff == req.staff && h.loanDate == req.loanDate
    ensures h.dueDate == req.dueDate && h.note == req.note
  {
    Header(id, req.borrower, req.staff, req.loanDate, req.dueDate, None, req.note)
  }

  /** One line per requested book, in order, copying both quantities as sent.
      The pointwise `ensures` is the definition, in the form the method contracts use. */
  function NewLines(id: int, books: seq<BookRequest>): (ls: seq<Line>)
    ensures |ls| == |books|
    ensures forall i :: 0 <= i < |books| ==>
      ls[i] == Line(id, books[i].book, books[i].lent, books[i].returned)
  {
    seq(|books|, i requires 0 <= i < |books| => Line(id, books[i].book, books[i].lent, books[i].returned))
  }

  /** `UPDATE EMPRESTIMO_LIVRO SET QUANTIDADEDEVOLVIDA = QUANTIDADEDEVOLVIDA + q
      WHERE CODIGOEMPRESTIMO = id AND CODIGOLIVRO = book`: no upper bound. */
  function AddReturned(lines: seq<Line>, id: int, book: int, q: int): (r: seq<Line>)
    ensures |r| == |lines|
  {
    seq(|lines|, i requires 0 <= i < |lines| =>
      if lines[i].loan == id && lines[i].book == book then lines[i].(returned := lines[i].returned + q) else lines[i])
  }

  /** The return loop: one increment per item, in order. */
  function ApplyReturns(lines: seq<Line>, id: int, items: seq<ReturnItem>): (r: seq<Line>)
    ensures |r| == |lines|
    decreases |items|
  {
    if items == [] then lines
    else ApplyReturns(AddReturned(lines, id, items[0].book, items[0].quantity), id, items[1..])
  }

  /** The total `quantidade` the items return for one book. */
  function Returned(items: seq<ReturnItem>, book: int): int
  {
    if items == [] then 0
    else (if items[0].book == book then items[0].quantity else 0) + Returned(items[1..], book)
  }

  /** What a return does to each line: only `quantidadedevolvida` of a line of
      this loan changes, by the total returned for its book; nothing else moves. */
  lemma {:induction false} ApplyReturnsEffect(lines: seq<Line>, id: int, items: seq<ReturnItem>)
    ensures forall i :: 0 <= i < |lines| ==>
      ApplyReturns(lines, id, items)[i] ==
        lines[i].(returned := lines[i].returned + (if lines[i].loan == id then Returned(items, lines[i].book) else 0))
    decreases |items|
  {
    if items != [] {
      var next := AddReturned(lines, id, items[0].book, items[0].quantity);
      ApplyReturnsEffect(next, id, items[1..]);
    }
  }

  /** Nothing bounds a return: a line can end with more copies back than lent. */
  lemma ReturnHasNoUpperBound()
    ensures ApplyReturns([Line(1, 10, 1, 1)], 1, [ReturnItem(10, 5)])[0].returned == 6
  {
    ApplyReturnsEffect([Line(1, 10, 1, 1)], 1, [ReturnItem(10, 5)]);
    assert Returned([ReturnItem(10, 5)][1..], 10) == 0;
  }

  /** The lines that survive `DELETE FROM EMPRESTIMO_LIVRO WHERE CODIGOEMPRESTIMO = id`. */
  function OtherLines(lines: seq<Line>, id: int): (r: seq<Line>)
    ensures forall l :: l in r <==> l in lines && l.loan != id
  {
    if lines == [] then []
    else (if lines[0].loan != id then [lines[0]] else []) + OtherLines(lines[1..], id)
  }

  /** The permission test of `deleteEmprestimo`: `tipopessoa !== 2` is strict,
      `Number(privilegio) !== 999` coerces first. */
  predicate MayDelete(s: StaffClaim)
  {
    s.tipopessoa == Num(2) && NumberOf(s.privilegio) == Num(999)
  }

  /** A truthy `codigopessoa` that Postgres cannot read as an integer. */
  predicate Unreadable(codigopessoa: Option<Value>)
  {
    codigopessoa.Some? && Truthy(codigopessoa.value) && PgInt(codigopessoa.value).None?
  }

  /** The borrower the probe narrows to, if any. */
  function PersonOf(codigopessoa: Option<Value>): (r: Option<int>)
    ensures r.Some? <==> codigopessoa.Some? && Truthy(codigopessoa.value) && PgInt(codigopessoa.value).Some?
    ensures r.Some? ==> r == PgInt(codigopessoa.value)
  {
    if codigopessoa.Some? && Truthy(codigopessoa.value) then PgInt(codigopessoa.value) else None
  }

  class Loans {
    var headers: map<int, Header>
    var lines: seq<Line>
    /** The serial counter behind `CODIGOEMPRESTIMO`. */
    var nextId: int
    /** `LIVRO.QUANTIDADEDISPONIVEL` by book id. No loan operation reads or
        writes it; it is kept only so that each loan method can state
        `available == old(available)`: lending and returning leave the
        availability count as it was. */
    var available: map<int, int>

    /** Keys are header ids, ids are below the counter, and every line belongs
        to a header (the foreign key of EMPRESTIMO_LIVRO). */
    predicate Valid()
      reads this
    {
      (forall id :: id in headers ==> headers[id].id == id && id < nextId) &&
      (forall i :: 0 <= i < |lines| ==> lines[i].loan in headers)
    }

    constructor (available: map<int, int>)
      ensures Valid() && headers == map[] && lines == [] && this.available == available
    {
      headers := map[];
      lines := [];
      nextId := 1;
      this.available := available;
    }

    /** `postEmprestimo`. Statements: 0 BEGIN, 1 the header, 2.. one per book, then COMMIT. */
    method Post(body: Option<LoanRequest>, token: Option<string>, verified: Option<Claims>, failAt: Option<nat>)
      returns (code: int, created: Option<Created>)
      requires Valid()
      modifies this
      ensures Valid() && available == old(available)
      ensures body.None? ==> code == BAD_REQUEST && created.None? && headers == old(headers) && lines == old(lines)
      ensures body.Some? && TokenGate(token, verified).Some? ==>
        code == UNAUTHORIZED && created.None? && headers == old(headers) && lines == old(lines)
      ensures body.Some? && TokenGate(token, verified).None? && body.value.books.Some? &&
              !(failAt.Some? && failAt.value <= |body.value.books.value| + 2) ==>
        code == OK &&
        headers == old(headers)[old(nextId) := NewHeader(body.value, old(nextId))] &&
        lines == old(lines) + NewLines(old(nextId), body.value.books.value) &&
        created == Some(Created(NewHeader(body.value, old(nextId)), body.value.books.value, body.value.tempId, 0))
      ensures body.Some? && TokenGate(token, verified).None? &&
              (body.value.books.None? || (failAt.Some? && failAt.value <= |body.value.books.value| + 2)) ==>
        code == SERVER_ERROR
      ensures code != OK ==> created.None? && headers == old(headers) && lines == old(lines)
      ensures code == OK || code == BAD_REQUEST || code == UNAUTHORIZED || code == SERVER_ERROR
    {
      created := None;
      if body.None? {
        return BAD_REQUEST, None;
      }
      var gate := TokenGate(token, verified);
      if gate.Some? {
        return gate.value, None;
      }
      var req := body.value;
      var savedHeaders, savedLines := headers, lines;
      if Raises(failAt, 0) {
        return SERVER_ERROR, None;
      }
      if Raises(failAt, 1) {
        return SERVER_ERROR, None;
      }
      var id := nextId;
      nextId := nextId + 1;
      var h := NewHeader(req, id);
      headers := headers[id := h];
      if req.books.None? {
        headers, lines := savedHeaders, savedLines;
        return SERVER_ERROR, None;
      }
      var books := req.books.value;
      var i := 0;
      while i < |books|
        invariant 0 <= i <= |books|
        invariant headers == savedHeaders[id := h] && nextId == id + 1 && available == old(available)
        invariant lines == savedLines + NewLines(id, books[..i])
        invariant !(failAt.Some? && failAt.value < 2 + i)
      {
        if Raises(failAt, 2 + i) {
          headers, lines := savedHeaders, savedLines;
          return SERVER_ERROR, None;
        }
        lines := lines + [Line(id, books[i].book, books[i].lent, books[i].returned)];
        assert NewLines(id, books[..i + 1]) == NewLines(id, books[..i]) + [Line(id, books[i].book, books[i].lent, books[i].returned)];
        i := i + 1;
      }
      assert books[..i] == books;
      if Raises(failAt, 2 + |books|) {
        headers, lines := savedHeaders, savedLines;
        return SERVER_ERROR, None;
      }
      code := OK;
      created := Some(Created(h, books, req.tempId, 0));
    }

    /** `devolveEmprestimo`. A missing body throws before the token is read; a
        missing `emprestimo` throws inside the transaction. Statements: 0 BEGIN,
        1 the header, then per item a LIVRO read and a line update, then COMMIT. */
    method Devolve(body: Payload<ReturnRequest>, token: Option<string>, verified: Option<Claims>, failAt: Option<nat>)
      returns (code: int)
      requires Valid()
      modifies this
      ensures Valid() && available == old(available) && nextId == old(nextId)
      ensures body.NoBody? ==> code == SERVER_ERROR
      ensures body.Body? && TokenGate(token, verified).Some? ==> code == UNAUTHORIZED
      ensures body.Body? && TokenGate(token, verified).None? && body.item.Some? && body.item.value.books.Some? &&
              !(failAt.Some? && failAt.value <= 2 * |body.item.value.books.value| + 2) ==>
        code == OK &&
        lines == ApplyReturns(old(lines), body.item.value.id, body.item.value.books.value) &&
        headers == (if body.item.value.id in old(headers)
                    then old(headers)[body.item.value.id := old(headers)[body.item.value.id].(returnDate := body.item.value.returnDate, note := body.item.value.note)]
                    else old(headers))
      ensures body.Body? && TokenGate(token, verified).None? &&
              (body.item.None? || body.item.value.books.None? ||
               (failAt.Some? && failAt.value <= 2 * |body.item.value.books.value| + 2)) ==>
        code == SERVER_ERROR
      ensures code != OK ==> headers == old(headers) && lines == old(lines)
      ensures code == OK || code == UNAUTHORIZED || code == SERVER_ERROR
    {
      if body.NoBody? {
        return SERVER_ERROR;
      }
      var gate := TokenGate(token, verified);
      if gate.Some? {
        return gate.value;
      }
      var savedHeaders, savedLines := headers, lines;
      if Raises(failAt, 0) || body.item.None? || Raises(failAt, 1) {
        return SERVER_ERROR;
      }
      var req := body.item.value;
      if req.id in headers {
        headers := headers[req.id := headers[req.id].(returnDate := req.returnDate, note := req.note)];
      }
      if req.books.None? {
        headers := savedHeaders;
        return SERVER_ERROR;
      }
      var items := req.books.value;
      var updated := headers;
      var i := 0;
      while i < |items|
        invariant 0 <= i <= |items|
        invariant lines == ApplyReturns(savedLines, req.id, items[..i])
        invariant headers == updated && headers.Keys == savedHeaders.Keys && Valid()
        invariant nextId == old(nextId) && available == old(available)
        invariant !(failAt.Some? && failAt.value < 2 + 2 * i)
      {
        if Raises(failAt, 2 + 2 * i) || Raises(failAt, 3 + 2 * i) {
          headers, lines := savedHeaders, savedLines;
          return SERVER_ERROR;
        }
        lines := AddReturned(lines, req.id, items[i].book, items[i].quantity);
        ReturnsSnoc(savedLines, req.id, items[..i], items[i]);
        assert items[..i + 1] == items[..i] + [items[i]];
        i := i + 1;
      }
      assert items[..i] == items;
      if Raises(failAt, 2 + 2 * |items|) {
        headers, lines := savedHeaders, savedLines;
        return SERVER_ERROR;
      }
      code := OK;
    }

    /** `renovaEmprestimo`: a new due date and note on one header; lines untouched.
        On a failure the catch replies 500 (the later 200 is a second reply). */
    method Renova(body: Payload<RenewRequest>, token: Option<string>, verified: Option<Claims>, failAt: Option<nat>)
      returns (code: int)
      requires Valid()
      modifies this
      ensures Valid() && available == old(available) && nextId == old(nextId) && lines == old(lines)
      ensures body.NoBody? ==> code == SERVER_ERROR
      ensures body.Body? && TokenGate(token, verified).Some? ==> code == UNAUTHORIZED
      ensures body.Body? && TokenGate(token, verified).None? && body.item.Some? &&
              !(failAt.Some? && failAt.value <= 2) ==>
        code == OK &&
        headers == (if body.item.value.id in old(headers)
                    then old(headers)[body.item.value.id := old(headers)[body.item.value.id].(dueDate := body.item.value.dueDate, note := body.item.value.note)]
                    else old(headers))
      ensures body.Body? && TokenGate(token, verified).None? &&
              (body.item.None? || (failAt.Some? && failAt.value <= 2)) ==>
        code == SERVER_ERROR
      ensures code != OK ==> headers == old(headers)
      ensures code == OK || code == UNAUTHORIZED || code == SERVER_ERROR
    {
      if body.NoBody? {
        return SERVER_ERROR;
      }
      var gate := TokenGate(token, verified);
      if gate.Some? {
        return gate.value;
      }
      var savedHeaders := headers;
      if Raises(failAt, 0) || body.item.None? || Raises(failAt, 1) {
        return SERVER_ERROR;
      }
      var req := body.item.value;
      if req.id in headers {
        headers := headers[req.id := headers[req.id].(dueDate := req.dueDate, note := req.note)];
      }
      if Raises(failAt, 2) {
        headers := savedHeaders;
        return SERVER_ERROR;
      }
      code := OK;
    }

    /** `deleteEmprestimo`: only an employee (`tipopessoa` 2) with privilege 999,
        checked before any write; then the loan's lines, then its header. A token
        without the staff claim makes the check throw (500). */
    method Delete(body: Payload<DeleteRequest>, token: Option<string>, verified: Option<Claims>, failAt: Option<nat>)
      returns (code: int)
      requires Valid()
      modifies this
      ensures Valid() && available == old(available) && nextId == old(nextId)
      ensures body.NoBody? ==> code == SERVER_ERROR
      ensures body.Body? && TokenGate(token, verified).Some? ==> code == UNAUTHORIZED
      ensures body.Body? && TokenGate(token, verified).None? && verified.value.staff.None? ==> code == SERVER_ERROR
      ensures body.Body? && TokenGate(token, verified).None? && verified.value.staff.Some? ==>
        (code == UNAUTHORIZED <==> !MayDelete(verified.value.staff.value))
      ensures (body.Body? && TokenGate(token, verified).None? && verified.value.staff.Some? &&
               MayDelete(verified.value.staff.value) && body.item.Some? && !(failAt.Some? && failAt.value <= 3)) ==>
        code == OK &&
        lines == OtherLines(old(lines), body.item.value.id) &&
        headers == old(headers) - {body.item.value.id}
      ensures (body.Body? && TokenGate(token, verified).None? && verified.value.staff.Some? &&
               MayDelete(verified.value.staff.value) && (body.item.None? || (failAt.Some? && failAt.value <= 3))) ==>
        code == SERVER_ERROR
      ensures code != OK ==> headers == old(headers) && lines == old(lines)
      ensures code == OK || code == UNAUTHORIZED || code == SERVER_ERROR
    {
      if body.NoBody? {
        return SERVER_ERROR;
      }
      var gate := TokenGate(token, verified);
      if gate.Some? {
        return gate.value;
      }
      if verified.value.staff.None? {
        return SERVER_ERROR;
      }
      if !MayDelete(verified.value.staff.value) {
        return UNAUTHORIZED;
      }
      var savedHeaders, savedLines := headers, lines;
      if Raises(failAt, 0) || body.item.None? || Raises(failAt, 1) {
        return SERVER_ERROR;
      }
      var id := body.item.value.id;
      lines := OtherLines(lines, id);
      if Raises(failAt, 2) {
        lines := savedLines;
        return SERVER_ERROR;
      }
      headers := headers - {id};
      if Raises(failAt, 3) {
        headers, lines := savedHeaders, savedLines;
        return SERVER_ERROR;
      }
      assert forall i :: 0 <= i < |lines| ==> lines[i] in lines && lines[i] in savedLines && lines[i].loan != id;
      code := OK;
    }

    /** `getExisteEmprestimoAberto`: counts, row by row, the lines still open
        (`lent <> returned`) that join a header, narrowed to one borrower when
        `codigopessoa` is truthy. A borrower id Postgres cannot read as an
        integer makes the query throw, and so does any other failure of the
        query (`queryFails`); the handler has no catch, so either gives 500. */
    method Probe(token: Option<string>, verified: Option<Claims>, codigopessoa: Option<Value>, queryFails: bool)
      returns (code: int, stmt: Option<Statement>, open: bool)
      ensures TokenGate(token, verified).Some? ==> code == UNAUTHORIZED && stmt.None? && !open
      ensures TokenGate(token, verified).None? ==> stmt == Some(ProbeStatement(codigopessoa))
      ensures TokenGate(token, verified).None? && (Unreadable(codigopessoa) || queryFails) ==>
        code == SERVER_ERROR && !open
      ensures code == OK <==> TokenGate(token, verified).None? && !Unreadable(codigopessoa) && !queryFails
      ensures code == OK ==>
        (open <==> exists i :: 0 <= i < |lines| && Counted(headers, lines[i], PersonOf(codigopessoa)))
    {
      var gate := TokenGate(token, verified);
      if gate.Some? {
        return gate.value, None, false;
      }
      stmt := Some(ProbeStatement(codigopessoa));
      if Unreadable(codigopessoa) || queryFails {
        return SERVER_ERROR, stmt, false;
      }
      var person := PersonOf(codigopessoa);
      var count := 0;
      var i := 0;
      while i < |lines|
        invariant 0 <= i <= |lines|
        invariant count + OpenCount(headers, lines[i..], person) == OpenCount(headers, lines, person)
      {
        assert lines[i..][1..] == lines[i + 1..];
        if Counted(headers, lines[i], person) {
          count := count + 1;
        }
        i := i + 1;
      }
      OpenCountPositive(headers, lines, person);
      code := OK;
      open := count > 0;
    }
  }

  lemma {:induction false} ReturnsSnoc(lines: seq<Line>, id: int, items: seq<ReturnItem>, item: ReturnItem)
    ensures ApplyReturns(lines, id, items + [item]) == AddReturned(ApplyReturns(lines, id, items), id, item.book, item.quantity)
    decreases |items|
  {
    if items == [] {
      assert items + [item] == [item];
      assert [item][1..] == [];
    } else {
      assert (items + [item])[1..] == items[1..] + [item];
      ReturnsSnoc(AddReturned(lines, id, items[0].book, items[0].quantity), id, items[1..], item);
    }
  }
}
