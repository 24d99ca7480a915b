# Bibliothek back end: a Dafny model of its controllers

Bibliothek is the back end of a school library. Its controllers keep these tables:

- loans (`EMPRESTIMO` headers and `EMPRESTIMO_LIVRO` lines);
- books and their authors;
- subjects;
- the people of the school: students, professors and employees, each a `PESSOA` row plus a row of its own kind;
- staff accounts.

It also keeps an in-memory map of one-time verification codes. Clients send each change as one HTTP request.

- Most handlers that write bracket their statements with BEGIN and COMMIT.
- The list handlers, `getExisteEmprestimoAberto`, `authLogin` and the four code handlers (`sendOtp`, `checkOtp`, `otp`, `resetPasswordOtp`) open no transaction.
- `putFuncionario` and `putAluno` run their picture statements (the file delete, the upload and the clearing UPDATE) before BEGIN.

This project models those controllers in Dafny:

- A table is a `map` or a `seq` field of a class: `LoanEngine.Loans`, `Books.BookTable`, `Teachers.Faculty` and the rest.
- Every handler is a method of that class. Its `ensures` clauses give:
  - the reply code for each error path, and when the reply is 200, in both directions. A failing statement gives a non-200 reply, with five exceptions:
    - the catch blocks of `deleteLivro`, `putLivro`, `deleteAluno` and `deleteFuncionario` reply 200, so there the `deleted` or `updated` result is what tells success from failure;
    - `resetSenhaFuncionario` replies 200 before its COMMIT, so a failing COMMIT still replies 200 (and the change is rolled back);
  - the new state, as a function of the old state and the request;
  - what a failure leaves behind. That is nothing, except for the effects that run outside the transaction: the picture work of `putFuncionario` and `putAluno`, and the file deleted before a failing COMMIT in `deleteFuncionario` and `deleteAluno`.
- Lemmas about those functions prove what the handler promises:
  - how the loan status filters behave;
  - the last-request-wins reconciliation of professor–subject links;
  - the code map's state machine;
  - the picture decision under `COALESCE`.
- The SQL text the list endpoints build is modelled as well. An independent scanner (`SqlText.Scan`) reads the `$k` placeholders back out of the text. Every builder is proved to emit exactly `$1..$n` for its `n` values, in the order they were pushed.
- The string utilities are pure functions with lemmas:
  - word capitalisation;
  - `{{key}}` template rendering;
  - the code and password generators.

How faults and inputs are represented:

- SQL failures are an explicit oracle: `failAt == Some(k)` means the k-th statement of the operation raises.
- JSON values are `Common.Value` (a string, a number or `NaN`), and an absent field is `None`. The model follows the JavaScript tests as written:
  - truthiness;
  - loose `==` against strict `===`;
  - what `Number` does to strings.
- Postgres reading a parameter as an integer is `Common.KeyOf`:
  - an undefined field is NULL and matches no row;
  - an unreadable one makes the statement raise.

The model keeps these behaviours of the code as written:

- Loans:
  - A new loan line copies `quantidadedevolvida` from the request.
  - A return adds to it without any upper bound.
  - No loan operation touches `LIVRO.QUANTIDADEDISPONIVEL`.
  - The "Pendente" status has no date test, so every "Atrasado" loan is also "Pendente".
  - An over-returned line can make a loan read "Devolvido" while another line is still open. The open-loan probe tests each line rather than the sums, so it still reports that loan as open (`LoanStatus.ProbeDisagreesWithDevolvido`).
- Students: `putAluno` clears a removed picture with an UPDATE keyed by the student's `ALUNO` id, not by its `PESSOA` id. For a student whose two ids differ, the reply shows no picture and the file is deleted, yet the person row keeps the old file id (`Students.RemovalMissesOwnRow`).
- Access:
  - `resetPassword` consults neither a verification code nor a token, so any caller can set the password of any e-mail.
  - `sendOtp` stores its code under `otp` and `checkOtp` reads it there; `otp` stores its code under `code` and `resetPasswordOtp` reads it there. Both use the same map, so a check under the other name, with the code left out of the request, compares undefined with undefined and succeeds (`Codes.OtherFieldMatchesMissingCode`).
  - `putConta` replies with the request's `conta` object, passwords included.

## Model

| member | source | states |
|---|---|---|
| Common.TokenGate | src/controllers/autor.controller.ts:10-17 | an absent or empty token gives 401, and so does a token the verifier rejects; otherwise the handler goes on |
| Common.NumberOf | src/controllers/disciplina.controller.ts:22 | `Number` maps the empty string to 0, a signed digit string to its value, any other string to NaN, and leaves numbers alone |
| Common.NumbersOf | src/controllers/funcionario.controller.ts:43 | `values.map(Number)` keeps the length and coerces each element |
| Common.AsList | src/controllers/emprestimo.controller.ts:80 | `Array.isArray(x) ? x : [x]`: a scalar becomes a one-element list, and a list is kept |
| Common.Normalised | src/controllers/disciplina.controller.ts:68-70 | a single object becomes a one-element list, and an array is kept |
| Common.NumberOfDecimal | src/controllers/emprestimo.controller.ts:81 | the decimal text of a count coerces back to that count |
| SqlText.Placeholders | src/controllers/emprestimo.controller.ts:81 | `items.map((_, i) => '$' + (start + i))`: n texts, the i-th being `$` and the decimal of start + i |
| SqlText.PlaceholderTexts | src/controllers/emprestimo.controller.ts:81 | the item-by-item loop builds exactly `Placeholders(start, n)` |
| SqlText.ScanPlaceholderList | src/controllers/emprestimo.controller.ts:81-82 | a comma list of `$start..$start+n-1` reads back as exactly those numbers, in order |
| SqlText.ScanInList | src/controllers/emprestimo.controller.ts:82 | the text `col IN ($p,...)` holds exactly its own placeholders |
| SqlText.ScanJoin | src/controllers/emprestimo.controller.ts:137-139 | joining conditions with a `$`-free separator concatenates their placeholders |
| SqlText.ScanAppend | src/controllers/emprestimo.controller.ts:137-147 | gluing texts reads as reading each part, when the second part does not start with a digit |
| Filters.Selected | src/controllers/emprestimo.controller.ts:79-80 | a filter is applied only when the field is truthy, and then with its values as a list |
| Filters.SelectedNumbers | src/controllers/funcionario.controller.ts:41-43 | as `Selected`, with every value passed through `Number` |
| Filters.PushInFilter | src/controllers/funcionario.controller.ts:19-25 | one list filter pushes `col IN ($k..)` numbered from `paramIndex`, appends its values, and advances `paramIndex` by their count |
| Filters.Apply | src/controllers/emprestimo.controller.ts:79-112 | one filter block, as the controller runs it, leaves the conditions and values that `FilterCond`/`FilterVals` specify |
| Filters.Step | src/controllers/emprestimo.controller.ts:79-112 | running the next filter block keeps `paramIndex == \|values\| + 1` |
| Filters.FilterConditionsNumbered | src/controllers/emprestimo.controller.ts:74-115 | the conditions hold exactly the placeholders `$start..$start+\|values\|-1`, in the order the values were pushed |
| Filters.ScanWhere | src/controllers/emprestimo.controller.ts:137-139 | WHERE appears only when a condition exists, with the conditions AND-ed and no placeholder added or lost |
| Filters.ScanListStatement | src/controllers/autor.controller.ts:40-44 | every list statement's text holds `$1..$n`, in order, for its n values |
| Filters.FuncionarioParams | src/controllers/funcionario.controller.ts:19-45 | the values are employee ids, then privileges as sent, then situacao values through `Number` |
| Filters.FuncionarioNumbered | src/controllers/funcionario.controller.ts:19-51 | the employee query is numbered `$1..$n`, and the `PES.TIPOPESSOA = 2` clause is always present: AND-ed after the filters, or alone |
| Filters.FuncionarioConditions | src/controllers/funcionario.controller.ts:19-45 | the three filter blocks, run in order, give the specified conditions and values, with `paramIndex == \|values\| + 1` |
| Filters.FuncionarioQuery | src/controllers/funcionario.controller.ts:8-55 | the statement built as the controller builds it equals `FuncionarioStatement` |
| Filters.DisciplinaStatementSound | src/controllers/disciplina.controller.ts:13-37 | situacao values through `Number` come first, then discipline ids, numbered `$1..$n` |
| Filters.DisciplinaQuery | src/controllers/disciplina.controller.ts:5-40 | the built statement equals `DisciplinaStatement`, with WHERE only when a filter is set |
| Filters.AutorStatementSound | src/controllers/autor.controller.ts:20-42 | author ids come first, then situacao values through `Number`, numbered `$1..$n` |
| Filters.AutorQuery | src/controllers/autor.controller.ts:19-44 | the built statement equals `AutorStatement` |
| Filters.GetAutor | src/controllers/autor.controller.ts:5-53 | the gate gives 401 and sends nothing; otherwise `AutorStatement` is sent; a failing query gives 500 |
| LoanQueryText.ListingParams | src/controllers/emprestimo.controller.ts:78-112 | borrowers, then books, then the four date bounds, each as sent; a scalar becomes a one-element list; an empty date is skipped |
| LoanQueryText.ListingNumbered | src/controllers/emprestimo.controller.ts:74-150 | the listing text holds exactly `$1..$n` for its n values, in order; the HAVING clause adds none |
| LoanQueryText.HavingClean | src/controllers/emprestimo.controller.ts:117-135 | the status tests carry no placeholder |
| LoanQueryText.ListingConditions | src/controllers/emprestimo.controller.ts:73-112 | the WHERE blocks, run in order, give the specified conditions and values, with `paramIndex == \|data\| + 1` |
| LoanQueryText.StatusSqlsSnoc | src/controllers/emprestimo.controller.ts:122-130 | each `statusConditions.push` extends the tests of the selected statuses by that one status's test |
| LoanQueryText.ListingHaving | src/controllers/emprestimo.controller.ts:117-135 | the selected tests, in the order '1', '0', '2', OR-ed inside one pair of parentheses, or no HAVING condition at all |
| LoanQueryText.ListingQuery | src/controllers/emprestimo.controller.ts:73-150 | the statement built as the controller builds it equals `ListingStatement` |
| LoanListing.ReadAll | src/controllers/emprestimo.controller.ts:157 | the bound values are read under one cast exactly when every value can be, and then value by value |
| LoanListing.ReadAllAppend | src/controllers/emprestimo.controller.ts:84-113 | reading the values of consecutive filter blocks reads each block in turn |
| LoanListing.IdFilter | src/controllers/emprestimo.controller.ts:80-94 | a falsy field sets no filter; an empty list (`IN ()`) or a value that is no integer fails; otherwise the cast ids of the field's values filter |
| LoanListing.DateBound | src/controllers/emprestimo.controller.ts:96-115 | an absent or empty date sets no bound; a text that is no date fails; otherwise its day bounds |
| LoanListing.QueryOf | src/controllers/emprestimo.controller.ts:78-135 | the request's query exists iff every filter can be cast; it filters borrowers and books iff their fields are truthy, each date bound iff its text is non-empty, and selects the statuses `situacao` names |
| LoanListing.ListingReadsAsQuery | src/controllers/emprestimo.controller.ts:78-157 | the statement's values, read under Postgres's casts, are the query's borrowers, then its books, then its date bounds in order |
| LoanListing.GetEmprestimo | src/controllers/emprestimo.controller.ts:5-164 | the gate gives 401 and sends nothing; otherwise `ListingStatement` is sent; 200 iff the query's casts succeed and nothing else fails, and then the reply lists exactly the loans `Listing` selects for `QueryOf` of the request; otherwise 500 |
| LoanQueryText.ProbeStatement | src/controllers/emprestimo.controller.ts:183-194 | the borrower clause `$1` and its one parameter appear exactly when `codigopessoa` is truthy |
| LoanStatus.SelectedStatuses | src/controllers/emprestimo.controller.ts:117-130 | a status is selected iff the field is truthy and its list contains that exact string ("1", "0" or "2") |
| LoanStatus.SumsOf | src/controllers/emprestimo.controller.ts:120-129 | the sums of a group are NULL exactly when it has no line |
| LoanStatus.Rows | src/controllers/emprestimo.controller.ts:62-68 | LEFT JOIN: a loan without lines yields one NULL row; otherwise one row per line |
| LoanStatus.Listing | src/controllers/emprestimo.controller.ts:5-150 | a loan is listed iff its borrower and its employee exist, some row survives WHERE, and HAVING holds of the sums of the surviving rows |
| LoanStatus.StatusOfLines | src/controllers/emprestimo.controller.ts:120-129 | over a loan's lines: Devolvido iff returned = lent; Pendente iff returned < lent; Atrasado iff returned < lent and today > due; never Devolvido and Pendente at once |
| LoanStatus.AtrasadoIsPendente | src/controllers/emprestimo.controller.ts:120-125 | Atrasado is exactly Pendente with today after the due date, so every Atrasado loan is Pendente |
| LoanStatus.SumsBelow | src/controllers/emprestimo.controller.ts:120-129 | with no over-returned line, returned ≤ lent, with equality iff every line came back in full |
| LoanStatus.DevolvidoMeansAllReturned | src/controllers/emprestimo.controller.ts:128-129 | with no over-returned line, Devolvido iff every line came back in full |
| LoanStatus.DevolvidoWithOpenLine | src/controllers/emprestimo.controller.ts:128-129 | with an over-returned line, a loan reads Devolvido while another line is still open |
| LoanStatus.NoLinesNoStatus | src/controllers/emprestimo.controller.ts:43-68 | a loan without lines satisfies no status; it is listed iff its joins and header filters pass and no status or book filter is given |
| LoanStatus.BookFilterNarrowsSums | src/controllers/emprestimo.controller.ts:87-93 | with a book filter, the status sums run over exactly the loan's lines for those books |
| LoanStatus.AllLinesWithoutBookFilter | src/controllers/emprestimo.controller.ts:78-112 | without a book filter, a passing loan is grouped over all its lines |
| LoanStatus.NoStatusAdmitsAll | src/controllers/emprestimo.controller.ts:117-135 | when no status is selected there is no HAVING clause, and every group passes |
| LoanStatus.HavingIsDisjunction | src/controllers/emprestimo.controller.ts:117-135 | a group passes iff it satisfies one of the selected status tests |
| LoanStatus.OpenCountPositive | src/controllers/emprestimo.controller.ts:183-199 | the probe's count is positive iff some joined line has lent ≠ returned, for that borrower when one is given |
| LoanStatus.ProbeDisagreesWithDevolvido | src/controllers/emprestimo.controller.ts:183-199 | a loan that reads Devolvido can still be reported open by the probe |
| LoanEngine.NewHeader | src/controllers/emprestimo.controller.ts:223-225 | the new header carries the request's borrower, employee, dates and note, and no return date |
| LoanEngine.NewLines | src/controllers/emprestimo.controller.ts:229-233 | one line per requested book, in order, copying both quantities as sent |
| LoanEngine.ApplyReturnsEffect | src/controllers/emprestimo.controller.ts:273-281 | a return adds, for each line of this loan, the total returned for its book to `quantidadedevolvida`; nothing else changes |
| LoanEngine.ReturnsSnoc | src/controllers/emprestimo.controller.ts:273-281 | the return loop applies one increment per item, in order |
| LoanEngine.ReturnHasNoUpperBound | src/controllers/emprestimo.controller.ts:278-280 | a line can end with more copies returned than lent |
| LoanEngine.OtherLines | src/controllers/emprestimo.controller.ts:340-342 | deleting a loan's lines keeps exactly the lines of the other loans |
| LoanEngine.PersonOf | src/controllers/emprestimo.controller.ts:189-192 | the probe narrows to a borrower iff `codigopessoa` is truthy and readable as an integer |
| LoanEngine.Loans.Post | src/controllers/emprestimo.controller.ts:202-249 | a missing body gives 400 before the gate; then the gate gives 401; 200 iff `livros` is present and no statement fails, and any failing statement gives 500; on success one header plus `NewLines`, availability untouched; any failure leaves no rows |
| LoanEngine.Loans.Devolve | src/controllers/emprestimo.controller.ts:251-289 | a missing body gives 500, then the gate gives 401; 200 iff `emprestimo` and its `livros` are present and no statement fails, otherwise 500; on success the header's return date and note are replaced and the lines become `ApplyReturns`; on failure nothing changes; availability is never touched |
| LoanEngine.Loans.Renova | src/controllers/emprestimo.controller.ts:291-318 | a missing body gives 500, then the gate gives 401; 200 iff `emprestimo` is present and no statement fails, otherwise 500; only the due date and note of one header change; lines never change |
| LoanEngine.Loans.Delete | src/controllers/emprestimo.controller.ts:320-355 | 401 iff not (`tipopessoa === 2` and `Number(privilegio) === 999`), checked before any write; once allowed, 200 iff `emprestimo` is present and no statement fails, otherwise 500; on success the loan's lines and header go and nothing else changes; on failure nothing changes |
| LoanEngine.Loans.Probe | src/controllers/emprestimo.controller.ts:167-200 | after the gate, 200 iff the borrower id is readable and the query does not fail, otherwise 500 with `open` false; on 200, `open` iff some counted line exists |
| Authors.StoredNote | src/controllers/autor.controller.ts:76 | the note is kept iff it is a non-empty string, and is NULL otherwise |
| Authors.StoredNoteIdempotent | src/controllers/autor.controller.ts:76 | normalising a stored note again changes nothing |
| Authors.Inserted | src/controllers/autor.controller.ts:75-77 | the inserted row has the new id, the name as sent and the normalised note |
| Authors.Updated | src/controllers/autor.controller.ts:114-116 | only the row `codigoautor` names changes, getting name, note and situacao as sent |
| Authors.Removed | src/controllers/autor.controller.ts:152-154 | exactly the row the key names is removed |
| Authors.RowAt | src/controllers/autor.controller.ts:115-122 | `RETURNING *` gives the named row iff it exists |
| Authors.InsertThenRemove | src/controllers/autor.controller.ts:75-77 | deleting by the new id restores the table |
| Authors.UpdateKeepsEmptyNote | src/controllers/autor.controller.ts:114-116 | an empty note stays "" on update, while the insert stores NULL |
| Authors.AuthorTable.Post | src/controllers/autor.controller.ts:55-92 | 400 without a body, then the gate; 200 iff no statement fails, otherwise 500; on success the row is stored and the reply is the row, `sync` 0 and `codigoautortemp` = the client's id; on failure nothing changes |
| Authors.AuthorTable.Put | src/controllers/autor.controller.ts:94-130 | 400 without a body, then the gate; 200 iff the key is readable and no statement fails, otherwise 500; on success the table becomes `Updated` and the reply is the named row with `sync` 0; on failure nothing changes |
| Authors.AuthorTable.Delete | src/controllers/autor.controller.ts:132-164 | a missing body gives 500 and no `autor` gives 400, both before the gate; 200 iff the key is readable and no statement fails, otherwise 500; on success only the named row goes; on failure nothing changes |
| Subjects.NewRows | src/controllers/disciplina.controller.ts:72-78 | one row per element, in order, with consecutive ids |
| Subjects.AddedEffect | src/controllers/disciplina.controller.ts:68-84 | the insert keeps every old row and adds exactly the new ids, each holding its element |
| Subjects.Replies | src/controllers/disciplina.controller.ts:77 | each reply is the stored row with `sync` 0 |
| Subjects.UpdateAllEffect | src/controllers/disciplina.controller.ts:112-118 | the update keeps the set of rows; a row no element names is untouched; for every row, the last element naming it decides its fields |
| Subjects.BareReplies | src/controllers/disciplina.controller.ts:116-117 | with no RETURNING, each reply is `{ sync: 0 }` alone |
| Subjects.DeleteTextNumbered | src/controllers/disciplina.controller.ts:152-155 | the delete statement's placeholders are exactly `$1..$n` |
| Subjects.RemovedAll | src/controllers/disciplina.controller.ts:152-155 | a row goes iff some listed key names it |
| Subjects.SubjectTable.Post | src/controllers/disciplina.controller.ts:48-86 | 400 without a body, then the gate; 200 iff no statement fails, and a failing one gives 400; on success `Added(NewRows)` with `Replies`; any failure leaves the table unchanged |
| Subjects.SubjectTable.Put | src/controllers/disciplina.controller.ts:88-128 | 400 without a body, then the gate; an unreadable id or a failing statement gives 400; otherwise 200 with `UpdateAll` and bare replies; any failure leaves the table unchanged |
| Subjects.SubjectTable.Delete | src/controllers/disciplina.controller.ts:130-165 | a missing body gives 500 and no list gives 400; the statement sent is `DeleteText(n)`; an empty list, an unreadable id or a failing statement gives 400; otherwise 200 with `RemovedAll`; any failure leaves the table unchanged |
| Books.NewBook | src/controllers/livro.controller.ts:46-61 | the new book's available count equals its total |
| Books.LinksFor | src/controllers/livro.controller.ts:67-76 | one `LIVRO_AUTOR` row per listed author, in order |
| Books.ListedAuthors | src/controllers/livro.controller.ts:67 | links are made only for a present list |
| Books.AuthorsOfMembership | src/controllers/livro.controller.ts:101-107 | an author is listed for a book iff a link row joins them |
| Books.CreatedBookAuthors | src/controllers/livro.controller.ts:67-76 | listing a book created under a fresh id reports exactly its listed authors, in order |
| Books.Views | src/controllers/livro.controller.ts:101-113 | each book, in order, with its authors listed as `{ id, sync: 0 }` |
| Books.Without | src/controllers/livro.controller.ts:146-150 | exactly the books the key names are removed |
| Books.WithoutKeepsIds | src/controllers/livro.controller.ts:146-150 | deleting keeps ids distinct and adds no book |
| Books.Renamed | src/controllers/livro.controller.ts:179-183 | only the named book changes, getting name, note and situacao as sent |
| Books.BookTable.Post | src/controllers/livro.controller.ts:22-85 | a missing body gives 500 and a missing title 400, before any write; 200 iff no statement fails, otherwise 500; on success one book plus its links; any failure leaves neither |
| Books.BookTable.Get | src/controllers/livro.controller.ts:91-125 | on success the reply is `Views(books, links)`; otherwise 500 |
| Books.BookTable.Delete | src/controllers/livro.controller.ts:127-158 | a missing `livroID` gives 400 and then the gate; otherwise the reply is 200 whatever happens, with `deleted` iff the statements ran |
| Books.BookTable.Put | src/controllers/livro.controller.ts:160-189 | a missing `livroID` gives 400; on success the books become `Renamed` |
| Images.ImageUrl | src/controllers/aluno.controller.ts:33 | the URL is the fixed prefix, the file id and `.png` |
| Images.ImageUrlRoundTrip | src/controllers/aluno.controller.ts:33 | the file id can be read back from its URL |
| Images.ImageUrlInjective | src/controllers/aluno.controller.ts:33 | distinct files have distinct URLs |
| Images.ImageIdOfSound | src/controllers/aluno.controller.ts:33 | every URL of that shape is the URL of the id it names |
| Images.Shown | src/controllers/aluno.controller.ts:30-35 | a stored id is shown by URL when non-empty, and as null otherwise |
| Images.Decide | src/controllers/aluno.controller.ts:122-145 | a sent file wins; otherwise `imageChanged == 2`, compared loosely, means removal; anything else keeps the picture |
| Images.CoalesceDecision | src/controllers/aluno.controller.ts:148-149 | under `COALESCE($3, IMAGEM)` a sent file replaces the stored id, and otherwise the update leaves it alone |
| Images.FilesAfter | src/controllers/aluno.controller.ts:122-140 | a kept picture leaves the files alone; a sent or removed one deletes the stored file, a sent one adds the upload, and no other file comes or goes |
| Students.Formatted | src/controllers/aluno.controller.ts:30-35 | each row keeps its fields and shows its picture by URL |
| Students.FormattedReadsBack | src/controllers/aluno.controller.ts:30-35 | a listed URL is shown iff a file is stored, and names that file |
| Students.ReplyImage | src/controllers/aluno.controller.ts:122-145 | Sent: the URL of the new file; Removed: null; Kept: the URL of the stored file |
| Students.PictureAfterPut | src/controllers/aluno.controller.ts:134-150 | Sent replaces the picture and Kept leaves it; Removed clears it only when the ALUNO id equals the PESSOA id |
| Students.RemovalMissesOwnRow | src/controllers/aluno.controller.ts:136-138 | when the student and person ids differ, the picture is removed from the reply and the file store but stays in the person row |
| Students.StudentsWithout | src/controllers/aluno.controller.ts:201-204 | the person's ALUNO rows go, and only they do |
| Students.StudentRegistry.Post | src/controllers/aluno.controller.ts:40-95 | a missing form gives 500, then the gate; 200 iff the upload and every statement succeed, otherwise 500; the person has TIPO 0; the reply has the new ids, `situacao` 1 and the shown picture; any failure leaves no rows and no file |
| Students.StudentRegistry.Put | src/controllers/aluno.controller.ts:97-173 | 200 iff the gate passes, the person is found and the upload, the keys and every later statement succeed, otherwise 500; on success the persons table is `PersonsAfterPut`, the files `FilesAfter`, and the reply carries `ReplyImage`; on failure the students are unchanged and the persons and files are as the picture stage before BEGIN left them |
| Students.StudentRegistry.Delete | src/controllers/aluno.controller.ts:175-214 | a missing `pessoaID` gives 400; otherwise 200; deleted iff the gate passes, the person exists and no statement fails; when deleted, the ALUNO rows go before the PESSOA row and the file goes too; otherwise the rows stay, and only a failing COMMIT leaves the file deleted |
| Employees.View | src/controllers/funcionario.controller.ts:108-113 | the creation reply carries both rows' columns except the password |
| Employees.ViewOmitsPassword | src/controllers/funcionario.controller.ts:113 | the reply does not depend on the stored password |
| Employees.ReplyImage | src/controllers/funcionario.controller.ts:148-167 | Sent: the new raw file id; Removed: null; Kept: the stored id when present |
| Employees.PersonsAfterPut | src/controllers/funcionario.controller.ts:158-173 | only the named person changes |
| Employees.PictureAfterPut | src/controllers/funcionario.controller.ts:148-173 | Sent replaces the picture, Removed leaves none, Kept leaves it |
| Employees.EmployeesAfterPut | src/controllers/funcionario.controller.ts:175-183 | only the named FUNCIONARIO row changes |
| Employees.ResetOnlyMatching | src/controllers/funcionario.controller.ts:209-213 | only a row whose email and id both match gets the new password, and no other field changes |
| Employees.ResetNeedsEmail | src/controllers/funcionario.controller.ts:209-213 | the right id with the wrong email changes nothing |
| Employees.EmployeesWithout | src/controllers/funcionario.controller.ts:252-255 | the person's FUNCIONARIO rows go, and only they do |
| Employees.StaffRegistry.Post | src/controllers/funcionario.controller.ts:64-123 | a missing form gives 500, then the gate; 200 iff the upload and every statement succeed, otherwise 500; the person has TIPOPESSOA 2, the employee stores the hashed password, and the reply is `View`; any failure leaves no rows and no file |
| Employees.StaffRegistry.Put | src/controllers/funcionario.controller.ts:125-197 | 200 iff the gate passes, the person is found and the upload, the keys and every later statement succeed, otherwise 500; on success the persons become `PersonsAfterPut`, the employees `EmployeesAfterPut`, the files `FilesAfter`, and the reply carries the raw id; on failure the employees are unchanged and the persons and files are as the picture stage before BEGIN left them |
| Employees.StaffRegistry.ResetPassword | src/controllers/funcionario.controller.ts:199-225 | on success only matching rows change; with no match the reply is 500; a failing COMMIT still replies 200 and rolls back |
| Employees.StaffRegistry.Delete | src/controllers/funcionario.controller.ts:227-266 | a missing `codigopessoa` gives 400; deleted iff the gate passes, the person exists and no statement fails; FUNCIONARIO rows go before the PESSOA row; the catch rolls back the rows, and only a failing COMMIT leaves the file deleted |
| Teachers.NewLinks | src/controllers/professor.controller.ts:40-44 | one link per listed subject, whatever its flag |
| Teachers.Remove | src/controllers/professor.controller.ts:119-122 | the delete removes every copy of the link and nothing else |
| Teachers.ReconcileLastWins | src/controllers/professor.controller.ts:114-136 | after the loop, the last request flagged 1 or 2 about a subject decides whether its link exists; other links keep their presence |
| Teachers.KeptMembers | src/controllers/professor.controller.ts:138-143 | the reply holds exactly the elements not flagged 2, each with `sync` 0 |
| Teachers.KeptAppend | src/controllers/professor.controller.ts:140-142 | the reply filter keeps order |
| Teachers.StrictFlag | src/controllers/professor.controller.ts:124-142 | a flag "2" sent as a string is neither deleted nor dropped |
| Teachers.ReconcileInto | src/controllers/professor.controller.ts:114-136 | the loop keeps every link pointing at an existing teacher and person |
| Teachers.ConsistentDeleteOrder | src/controllers/professor.controller.ts:180-186 | with consistent links, deleting the person's links first clears the way for the teacher delete |
| Teachers.InconsistentLinkBlocksDelete | src/controllers/professor.controller.ts:180-186 | a link naming another person blocks the teacher delete |
| Teachers.PersonsAfterPut | src/controllers/professor.controller.ts:105-107 | only the named person changes, getting name, contact, note and situacao |
| Teachers.TeachersAfterPut | src/controllers/professor.controller.ts:109-111 | only the named teacher's `identificador` changes |
| Teachers.LinkStatements | src/controllers/professor.controller.ts:114-136 | the loop succeeds iff every insert meets the foreign keys and no statement fails, and then leaves `LinksAfterPut` |
| Teachers.Faculty.Post | src/controllers/professor.controller.ts:11-62 | the person has TIPO 1 plus one teacher and `NewLinks`; the reply has the new ids and `situacao` 1; any failure leaves nothing |
| Teachers.Faculty.Put | src/controllers/professor.controller.ts:85-153 | on success the person, teacher and links are updated as specified and the reply carries `Kept`; on failure nothing changes |
| Teachers.Faculty.Delete | src/controllers/professor.controller.ts:155-193 | a missing `pessoaID` gives 400; links go, then teachers, then the person; consistent links always succeed |
| Codes.AfterIssue | src/controllers/auth.controller.ts:173-185 | issuing replaces the entry for that e-mail, expiring at now + 600000, and leaves the others alone |
| Codes.StoredAs | src/controllers/auth.controller.ts:202 | the stored code reads as undefined under the other field name |
| Codes.CheckOrder | src/controllers/auth.controller.ts:199-210 | Invalid iff no entry or a strict mismatch; Expired iff it matches and `expiresAt < now`; Accepted otherwise; only Accepted removes the entry |
| Codes.AcceptedUntilExpiry | src/controllers/auth.controller.ts:206 | a fresh code is accepted up to and including its expiry instant, and expired after it |
| Codes.AcceptedOnce | src/controllers/auth.controller.ts:210 | after an accepted check the same check is invalid |
| Codes.ReissueForgetsOldCode | src/controllers/resetPassword.controller.ts:27-38 | after a reissue the earlier code is invalid |
| Codes.NumericCodeRejected | src/controllers/resetPassword.controller.ts:57 | the comparison is strict: a code sent as a number never matches |
| Codes.OtherFieldMatchesMissingCode | src/controllers/auth.controller.ts:202-203 | a code stored under `otp`, checked under `code` with no code sent, is accepted |
| Codes.CodeStore.Issue | src/controllers/resetPassword.controller.ts:9-48 | a failing lookup gives 400; an unknown e-mail gives 401 and no change; otherwise the map becomes `AfterIssue` |
| Codes.CodeStore.Check | src/controllers/resetPassword.controller.ts:50-70 | the outcome is `CheckOutcome`; 200 iff accepted; the map becomes `AfterCheck` |
| Accounts.LoginCandidates | src/controllers/auth.controller.ts:15 | the rows with that e-mail whose person is active |
| Accounts.AccountTable.Login | src/controllers/auth.controller.ts:11-44 | a query failure gives 400; no candidate gives 401; a password matching no candidate gives 401; 200 iff a token is issued, for a candidate whose password matches |
| Accounts.AccountsAfterPut | src/controllers/auth.controller.ts:122-131 | `COALESCE` on username, password hash and email of the named row only |
| Accounts.PersonsAfterPut | src/controllers/auth.controller.ts:133-141 | `COALESCE` on name and contact of the named TIPO 2 person |
| Accounts.PutKeepsNulls | src/controllers/auth.controller.ts:122-141 | every field sent as null keeps its stored value, and rows not named are untouched |
| Accounts.AccountTable.Put | src/controllers/auth.controller.ts:104-155 | 200 iff both keys are readable, a new password has the named row, a matching current password and a hash, and no statement fails; a new password without the named row or with a wrong current password gives 401; the password changes only then; failures leave both tables unchanged |
| Accounts.ResetOnlyThatEmail | src/controllers/resetPassword.controller.ts:79 | only the password of the rows with that e-mail changes |
| Accounts.AccountTable.ResetPassword | src/controllers/resetPassword.controller.ts:72-85 | 200 iff hashing and the three statements succeed, and then the table is `ResetByEmail`; otherwise 400 and no change |
| Text.CapitalizeNull | src/utils/utils.ts:2-8 | null iff the text is undefined or empty; otherwise a text of the same length |
| Text.CapitalizeAt | src/utils/utils.ts:10-14 | each character: a space stays, a word's first character is upper-cased, every other one is lower-cased |
| Text.PipelineIsStartsUpper | src/utils/utils.ts:12-14 | split, capitalise each word, join equals upper-casing each word start |
| Text.CapitalizeKeepsWords | src/utils/utils.ts:10-14 | same number of words, each of the same length (empty words stay empty), and spaces in the same places |
| Text.CapitalizeIdempotent | src/utils/utils.ts:10-14 | capitalising twice gives the same text as once |
| Text.Substitute | src/gmail/gmail.ts:19 | `data[key]` when it is non-empty, the fallback otherwise |
| Text.RenderWithoutPlaceholders | src/gmail/gmail.ts:19 | a text with no `{{\w+}}` match comes back unchanged |
| Text.RenderPlaceholder | src/gmail/gmail.ts:19 | a placeholder is replaced by its value or the fallback, and the rest is rendered on its own |
| Text.NoRescan | src/gmail/gmail.ts:19 | a substituted value is emitted as is, even one that looks like a placeholder |
| Text.GenerateCode | src/gmail/gmail.ts:27-30 | `length` characters, each a decimal digit |
| Text.DefaultCode | src/gmail/gmail.ts:27-30 | with the default length every caller uses, six decimal digits |
| Text.GenerateTempPassword | src/gmail/gmail.ts:22-25 | `length` characters, each from the charset |
| Text.DefaultTempPassword | src/gmail/gmail.ts:22-25 | with the default length every caller uses, eight characters of the charset |
| Text.PasswordCharsetSize | src/gmail/gmail.ts:23 | the charset has 64 characters |
| Text.DrawReaches | src/gmail/gmail.ts:22-25 | every text over a charset is one the generator can produce |
| Text.MailText | src/gmail/gmail.ts:35-37 | a truthy text is used as is; otherwise the default text greets `name` |

## Left out

- HTTP wiring is not modelled: routes, the Fastify server, cookies and reply bodies beyond the fields named above. Replies are result codes.
- The database is abstract: SQL execution, the pg pool and concurrency are not modelled.
  - Every `pool.query` is taken to run on one connection, so BEGIN/COMMIT bracket an operation.
  - A catch block that does not roll back is treated as discarding the uncommitted writes. This covers `postFuncionario`, `putFuncionario`, `postProfessor`, `putProfessor`, `deleteProfessor`, `deleteLivro`, `putLivro`, `postAluno`, `putAluno`, `deleteAluno`, `deleteDisciplina` and `resetPassword`. `postLivro` does roll back.
- Postgres casts are given by `Common.PgInt`: only integer values and digit strings are read as integers. This cast is applied to key columns and to the `getEmprestimo` filters only.
- LoanEngine.Loans.Devolve: `quantidade`, `codigoemprestimo` and `codigolivro` are integers in the model. An undefined `codigolivro` matches no line, the same outcome as an id that names no line of the loan. A missing `quantidade` is bound as NULL, and `QUANTIDADEDEVOLVIDA + NULL` sets the line's returned count to NULL, which would change the sums of the listing and of the probe; this is not modelled. An id Postgres cannot cast, which raises and gives 500, is not modelled either.
- LoanEngine.Loans.Post: borrower, employee, book ids, quantities and dates are integers; a value Postgres would reject, which gives 500, is not modelled.
- LoanEngine.Loans.Renova: the loan id and the due date are integers; a value Postgres would reject, which gives 500, is not modelled.
- LoanEngine.Loans.Delete: the loan id is an integer; a value Postgres would reject, which gives 500, is not modelled.
- Authors.AuthorTable.Put: non-key columns such as SITUACAO accept any value; a value Postgres would reject, which makes the update fail, is not modelled.
- Subjects.SubjectTable.Put: non-key columns such as SITUACAO accept any value; a value Postgres would reject is not modelled.
- Books.BookTable.Post: non-key columns such as QUANTIDADETOTAL and SITUACAO accept any value; a value Postgres would reject is not modelled.
- Books.BookTable.Put: non-key columns such as SITUACAO accept any value; a value Postgres would reject is not modelled.
- Employees.StaffRegistry.Post: non-key columns such as PRIVILEGIO accept any value; a value Postgres would reject is not modelled.
- Employees.StaffRegistry.Put: non-key columns such as PRIVILEGIO and SITUACAO accept any value; a value Postgres would reject is not modelled.
- Students.StudentRegistry.Put: non-key columns such as SITUACAO accept any value; a value Postgres would reject is not modelled.
- Teachers.Faculty.Put: non-key columns such as SITUACAO accept any value; a value Postgres would reject is not modelled.
- LoanListing.GetEmprestimo: the reply is modelled as the set of listed loan ids; the columns of each row and its aggregated book list are not modelled.
- `Common.NumberOf` covers only the integer forms of `Number`: no decimals, exponents or surrounding whitespace.
- Token verification and hashing are foreign calls, so their results are parameters:
  - `verifyJWT` and the token source;
  - `hashPassword`/`comparePassword`. `auth.controller.ts` imports both from `src/utils/jwt.ts`, which exports only `createJWT` and `verifyJWT`. The model takes them to hash and compare. A missing export would make `authLogin` throw and reply 400;
  - the temporary password.
- ImageKit upload, delete and image resizing are abstract effects on a set of file ids. `aluno.controller.ts` imports a `deleteImage` helper that `imagekit.ts` does not define; the model takes it to delete the file.
- Mail sending, the template file, `sleep`, the `setTimeout` timers and the clock are left out. Code expiry is only the explicit `expiresAt` comparison against a `now` parameter. The timers also delete map entries on their own, and the model does not capture that; the next line says what follows from it.
- Codes.AcceptedUntilExpiry: the removal timers are not modelled, so this lemma and `Codes.CodeStore.Check` can answer Accepted (200) where the program answers 401.
  - An accepted check deletes the entry without `clearTimeout`, and the next `sendOtp`/`otp` clears an old timer only when an entry is present. So a code A accepted at t1 leaves A's timer armed. A code B issued for the same e-mail before A's expiry is then deleted when that timer fires, and a check of B after that moment gets 401 "invalid" in the program.
  - A code's own timer removes its entry at its expiry instant. A check after the expiry therefore usually gets "invalid", not the "expired" answer the `expiresAt < now` test gives in the model.
- Codes.CodeStore.Check: states its outcome against the map alone, with no timer. The entries that stale or expiring timers delete are not modelled; the line above gives the consequences.
- `Math.random` is a sequence of chosen indices (`picks`).
- The double reply on the error path of `renovaEmprestimo` is left out: the first reply, 500, is the one modelled.
- The trailing COMMIT without BEGIN in `sendOtp` and `otp` is not modelled.
- `sendOtp` joins `FUNCIONARIO.CODIGOFUNCIONARIO = PESSOA.CODIGOPESSOA`, while `otp` and `authLogin` join `FUNCIONARIO.PESSOA_ID = PESSOA.ID`. The e-mail lookup of both code issuers is therefore the parameter `registered`.
- A missing request body in the code and account handlers is not modelled, except a missing `conta`.
- `getLivro` lists rows in table order, and the unordered `LIMIT 1` of the login query returns some matching row.
- SQL whitespace in the fixed query texts is collapsed to single spaces.
- Outside the model's scope:
  - `editora.controller.ts`, whose `capitalize` does not terminate on non-empty input;
  - `sync.ts`;
  - the feedback, log and cleanup routes.
- Teachers:
  - Subject ids are integers, and the `DISCIPLINA` foreign key of a link is not modelled. A link insert needs only the teacher and the person to exist.
  - Foreign keys from `ALUNO` and `FUNCIONARIO` onto the deleted `PESSOA` row are not modelled in `deleteProfessor`.
- Template data values are strings, and a value is truthy when non-empty. Inherited keys such as `toString` are not modelled.
- Text.CapitalizeAt: case mapping is ASCII only. `toLowerCase`/`toUpperCase` on other characters, which can change the length, is not modelled.
- Text.PasswordCharsetSize: states only the charset's size, not that its 64 characters are distinct.
- Books.BookTable.Put: `putLivro` writes `NOME` while the insert writes `TITULO`. The model keeps the two columns apart as written and proves nothing relating them.
- Employees.StaffRegistry.ResetPassword: the hash of the temporary password is an input, so a throwing `hashPassword` on that path is not modelled.
