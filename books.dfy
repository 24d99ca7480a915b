/** The LIVRO and LIVRO_AUTOR tables as the book controller changes and lists
    them. Books are kept in table order, the order `SELECT l.* FROM LIVRO l`
    hands them back in. Statements are counted from 0 for the fault oracle. */
module Books {
  import opened Common

  datatype BookBody = BookBody(titulo: Option<Value>, quantidadetotal: Option<Value>, isbn: Option<Value>,
                               edicao: Option<Value>, localizacao: Option<Value>, observacao: Option<Value>,
                               editoraId: Option<Value>, autores: Option<seq<int>>)

  /** A stored book. `name` is the NOME column `putLivro` writes; the insert
      leaves it and `situacao` to their defaults (None). */
  datatype Book = Book(id: int, title: Value, total: Option<Value>, available: Option<Value>,
                       isbn: Option<Value>, edition: Option<Value>, location: Option<Value>, qrcode: string,
                       note: Option<Value>, publisher: Option<Value>, name: Option<Value>, situacao: Option<Value>)

  datatype Link = Link(author: int, book: int)

  datatype AuthorRef = AuthorRef(id: int, sync: int)

  /** One element of `getLivro`'s reply: the book and its `autores`. */
  datatype BookView = BookView(book: Book, authors: seq<AuthorRef>)

  datatype UpdateBody = UpdateBody(livroID: Option<Value>, nome: Option<Value>, observacao: Option<Value>,
                                   situacao: Option<Value>)

  const QrCode: string := "QRCODE"

  /** The row the insert stores: the available count is the total sent. */
  function NewBook(b: BookBody, title: Value, id: int): (bk: Book)
    ensures bk.id == id && bk.title == title && bk.available == bk.total && bk.total == b.quantidadetotal
    ensures bk.name.None? && bk.situacao.None? && bk.qrcode == QrCode
  {
    Book(id, title, b.quantidadetotal, b.quantidadetotal, b.isbn, b.edicao, b.localizacao, QrCode,
         b.observacao, b.editoraId, None, None)
  }

  /** `livro.autores && livro.autores.length > 0 ? livro.autores : []` */
  function ListedAuthors(b: BookBody): (r: seq<int>)
    ensures b.autores.None? ==> r == []
    ensures b.autores.Some? ==> r == b.autores.value
  {
    if b.autores.Some? && |b.autores.value| > 0 then b.autores.value else []
  }

  /** One LIVRO_AUTOR row per listed author, in order. */
  function LinksFor(id: int, authors: seq<int>): (ls: seq<Link>)
    ensures |ls| == |authors| && forall i :: 0 <= i < |authors| ==> ls[i] == Link(authors[i], id)
  {
    seq(|authors|, i requires 0 <= i < |authors| => Link(authors[i], id))
  }

  /** `SELECT AUTOR_ID FROM LIVRO_AUTOR WHERE LIVRO_ID = $1`, in table order. */
  function AuthorsOf(links: seq<Link>, book: int): seq<int>
  {
    if links == [] then []
    else (if links[0].book == book then [links[0].author] else []) + AuthorsOf(links[1..], book)
  }

  /** An author is listed for a book exactly when a link row joins them. */
  lemma {:induction false} AuthorsOfMembership(links: seq<Link>, book: int, a: int)
    ensures a in AuthorsOf(links, book) <==> Link(a, book) in links
  {
    if links != [] {
      AuthorsOfMembership(links[1..], book, a);
      assert links == [links[0]] + links[1..];
    }
  }

  lemma {:induction false} AuthorsOfAppend(xs: seq<Link>, ys: seq<Link>, book: int)
    ensures AuthorsOf(xs + ys, book) == AuthorsOf(xs, book) + AuthorsOf(ys, book)
  {
    if xs != [] {
      assert (xs + ys)[1..] == xs[1..] + ys;
      AuthorsOfAppend(xs[1..], ys, book);
    } else {
      assert xs + ys == ys;
    }
  }

  lemma {:induction false} AuthorsOfLinks(id: int, authors: seq<int>)
    ensures AuthorsOf(LinksFor(id, authors), id) == authors
  {
    if authors != [] {
      assert LinksFor(id, authors)[1..] == LinksFor(id, authors[1..]);
      AuthorsOfLinks(id, authors[1..]);
    }
  }

  lemma {:induction false} AuthorsOfNone(links: seq<Link>, book: int)
    requires forall i :: 0 <= i < |links| ==> links[i].book != book
    ensures AuthorsOf(links, book) == []
  {
    if links != [] {
      AuthorsOfNone(links[1..], book);
    }
  }

  /** Listing after creating a book under a fresh id reports exactly the listed authors, in order. */
  lemma CreatedBookAuthors(links: seq<Link>, id: int, authors: seq<int>)
    requires forall i :: 0 <= i < |links| ==> links[i].book < id
    ensures AuthorsOf(links + LinksFor(id, authors), id) == authors
  {
    AuthorsOfAppend(links, LinksFor(id, authors), id);
    AuthorsOfNone(links, id);
    AuthorsOfLinks(id, authors);
  }

  /** `autores.map(autor => ({ id: autor.autor_id, sync: 0 }))` */
  function Refs(ids: seq<int>): (r: seq<AuthorRef>)
    ensures |r| == |ids| && forall i :: 0 <= i < |ids| ==> r[i] == AuthorRef(ids[i], 0)
  {
    seq(|ids|, i requires 0 <= i < |ids| => AuthorRef(ids[i], 0))
  }

  /** `getLivro`'s reply: each book, in order, with its authors at `sync` 0. */
  function Views(books: seq<Book>, links: seq<Link>): (vs: seq<BookView>)
    ensures |vs| == |books|
    ensures forall i :: 0 <= i < |books| ==> vs[i].book == books[i] && vs[i].authors == Refs(AuthorsOf(links, books[i].id))
  {
    seq(|books|, i requires 0 <= i < |books| => BookView(books[i], Refs(AuthorsOf(links, books[i].id))))
  }

  /** `DELETE FROM LIVRO WHERE ID = $1`; the code deletes no link rows. */
  function Without(books: seq<Book>, k: Key): (r: seq<Book>)
    ensures forall b :: b in r <==> b in books && k != Key(b.id)
  {
    if books == [] then []
    else (if k == Key(books[0].id) then [] else [books[0]]) + Without(books[1..], k)
  }

  /** `UPDATE LIVRO SET NOME = $1, OBSERVACAO = $2, SITUACAO = $3 WHERE ID = $4`.
      The pointwise `ensures` is this update's definition, in the form the
      method contracts use. */
  function Renamed(books: seq<Book>, u: UpdateBody): (r: seq<Book>)
    ensures |r| == |books|
    ensures forall i :: 0 <= i < |books| ==>
      r[i] == if KeyOf(u.livroID) == Key(books[i].id)
              then books[i].(name := u.nome, note := u.observacao, situacao := u.situacao)
              else books[i]
  {
    seq(|books|, i requires 0 <= i < |books| =>
      if KeyOf(u.livroID) == Key(books[i].id)
      then books[i].(name := u.nome, note := u.observacao, situacao := u.situacao)
      else books[i])
  }

  predicate Missing(v: Option<Value>)
  {
    v.None? || !Truthy(v.value)
  }

  class BookTable {
    var books: seq<Book>
    var links: seq<Link>
    var nextId: int

    /** Ids are distinct and below the counter, and so is every linked book id. */
    predicate Valid()
      reads this
    {
      (forall i :: 0 <= i < |books| ==> books[i].id < nextId) &&
      (forall i, j :: 0 <= i < j < |books| ==> books[i].id != books[j].id) &&
      (forall i :: 0 <= i < |links| ==> links[i].book < nextId)
    }

    constructor ()
      ensures Valid() && books == [] && links == []
    {
      books := [];
      links := [];
      nextId := 1;
    }

    /** `postLivro`. Its token checks are commented out, so no token is read.
        A missing body throws on `livro.titulo` inside the try (500); a falsy
        title gives 400. Statements: BEGIN (0), the book (1), one link per
        listed author (2..), COMMIT. */
    method Post(body: Option<BookBody>, failAt: Option<nat>) returns (code: int)
      requires Valid()
      modifies this
      ensures Valid()
      ensures body.None? ==> code == SERVER_ERROR
      ensures body.Some? && Missing(body.value.titulo) ==> code == BAD_REQUEST
      ensures body.Some? && !Missing(body.value.titulo) &&
              !(failAt.Some? && failAt.value <= |ListedAuthors(body.value)| + 2) ==>
        code == OK &&
        books == old(books) + [NewBook(body.value, body.value.titulo.value, old(nextId))] &&
        links == old(links) + LinksFor(old(nextId), ListedAuthors(body.value))
      ensures body.Some? && !Missing(body.value.titulo) &&
              failAt.Some? && failAt.value <= |ListedAuthors(body.value)| + 2 ==>
        code == SERVER_ERROR
      ensures code != OK ==> books == old(books) && links == old(links)
    {
      if body.None? {
        return SERVER_ERROR;
      }
      var b := body.value;
      if Missing(b.titulo) {
        return BAD_REQUEST;
      }
      var savedBooks, savedLinks := books, links;
      if Raises(failAt, 0) || Raises(failAt, 1) {
        return SERVER_ERROR;
      }
      var id := nextId;
      nextId := nextId + 1;
      books := books + [NewBook(b, b.titulo.value, id)];
      var authors := ListedAuthors(b);
      var i := 0;
      while i < |authors|
        invariant 0 <= i <= |authors|
        invariant nextId == id + 1 && books == savedBooks + [NewBook(b, b.titulo.value, id)]
        invariant links == savedLinks + LinksFor(id, authors[..i])
        invariant !(failAt.Some? && failAt.value < 2 + i)
      {
        if Raises(failAt, 2 + i) {
          books, links := savedBooks, savedLinks;
          return SERVER_ERROR;
        }
        assert LinksFor(id, authors[..i + 1]) == LinksFor(id, authors[..i]) + [Link(authors[i], id)];
        links := links + [Link(authors[i], id)];
        i := i + 1;
      }
      assert authors[..i] == authors;
      if Raises(failAt, 2 + |authors|) {
        books, links := savedBooks, savedLinks;
        return SERVER_ERROR;
      }
      code := OK;
    }

    /** `getLivro`: no token is read. Statement 0 lists the books, statement
        1 + i lists the authors of book i. */
    method Get(failAt: Option<nat>) returns (code: int, views: seq<BookView>)
      ensures code == OK <==> !(failAt.Some? && failAt.value <= |books|)
      ensures code == OK ==> views == Views(books, links)
      ensures code != OK ==> code == SERVER_ERROR && views == []
    {
      if failAt.Some? && failAt.value <= |books| {
        return SERVER_ERROR, [];
      }
      code := OK;
      views := Views(books, links);
    }

    /** `deleteLivro`: a falsy `livroID` gives 400, then the token gate, then
        BEGIN (0), DELETE (1), COMMIT (2). Its catch replies 200, so a failed
        delete is told apart only by `deleted`. */
    method Delete(livroID: Option<Value>, token: Option<string>, verified: Option<Claims>, failAt: Option<nat>)
      returns (code: int, deleted: bool)
      requires Valid()
      modifies this
      ensures Valid() && links == old(links) && nextId == old(nextId)
      ensures Missing(livroID) ==> code == BAD_REQUEST && !deleted
      ensures !Missing(livroID) && TokenGate(token, verified).Some? ==> code == UNAUTHORIZED && !deleted
      ensures !Missing(livroID) && TokenGate(token, verified).None? ==> code == OK
      ensures deleted <==> !Missing(livroID) && TokenGate(token, verified).None? &&
                           KeyOf(livroID) != BadKey && !(failAt.Some? && failAt.value <= 2)
      ensures deleted ==> books == Without(old(books), KeyOf(livroID))
      ensures !deleted ==> books == old(books)
    {
      if Missing(livroID) {
        return BAD_REQUEST, false;
      }
      var gate := TokenGate(token, verified);
      if gate.Some? {
        return gate.value, false;
      }
      var k := KeyOf(livroID);
      if Raises(failAt, 0) || k == BadKey || Raises(failAt, 1) || Raises(failAt, 2) {
        return OK, false;
      }
      WithoutKeepsIds(books, k);
      books := Without(books, k);
      code, deleted := OK, true;
    }

    /** `putLivro`: destructuring a missing body throws before the try (500);
        a falsy `livroID` gives 400, then the gate, BEGIN (0), UPDATE (1),
        COMMIT (2). Its catch replies 200 as well. */
    method Put(body: Option<UpdateBody>, token: Option<string>, verified: Option<Claims>, failAt: Option<nat>)
      returns (code: int, updated: bool)
      requires Valid()
      modifies this
      ensures Valid() && links == old(links) && nextId == old(nextId)
      ensures body.None? ==> code == SERVER_ERROR && !updated
      ensures body.Some? && Missing(body.value.livroID) ==> code == BAD_REQUEST && !updated
      ensures body.Some? && !Missing(body.value.livroID) && TokenGate(token, verified).Some? ==>
        code == UNAUTHORIZED && !updated
      ensures body.Some? && !Missing(body.value.livroID) && TokenGate(token, verified).None? ==> code == OK
      ensures updated <==> body.Some? && !Missing(body.value.livroID) && TokenGate(token, verified).None? &&
                           KeyOf(body.value.livroID) != BadKey && !(failAt.Some? && failAt.value <= 2)
      ensures updated ==> books == Renamed(old(books), body.value)
      ensures !updated ==> books == old(books)
    {
      if body.None? {
        return SERVER_ERROR, false;
      }
      var u := body.value;
      if Missing(u.livroID) {
        return BAD_REQUEST, false;
      }
      var gate := TokenGate(token, verified);
      if gate.Some? {
        return gate.value, false;
      }
      if Raises(failAt, 0) || KeyOf(u.livroID) == BadKey || Raises(failAt, 1) || Raises(failAt, 2) {
        return OK, false;
      }
      books := Renamed(books, u);
      code, updated := OK, true;
    }
  }

  /** Deleting keeps the remaining ids distinct and brings in no new book. */
  lemma {:induction false} WithoutKeepsIds(books: seq<Book>, k: Key)
    requires forall i, j :: 0 <= i < j < |books| ==> books[i].id != books[j].id
    ensures forall i, j :: 0 <= i < j < |Without(books, k)| ==> Without(books, k)[i].id != Without(books, k)[j].id
    ensures forall i :: 0 <= i < |Without(books, k)| ==> Without(books, k)[i] in books
  {
    if books != [] {
      WithoutKeepsIds(books[1..], k);
      var rest := Without(books[1..], k);
      forall i | 0 <= i < |rest| ensures rest[i].id != books[0].id
      {
        var j :| 0 <= j < |books[1..]| && books[1..][j] == rest[i];
        assert books[j + 1] == rest[i];
      }
    }
  }
}
