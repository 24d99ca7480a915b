/** The PESSOA and ALUNO tables, and the ImageKit files behind person
    pictures, as the student controller changes them. Statements are counted
    from 0 for the fault oracle `failAt`. The ALUNO rows reference PESSOA rows
    (`PESSOA_ID`), and Postgres refuses to delete a referenced person. */
module Students {
  import opened Common
  import opened Images

  datatype Person = Person(id: int, name: Option<Value>, contact: Option<Value>, note: Option<Value>,
                           image: Option<string>, tipo: int, situacao: Option<Value>)

  datatype Student = Student(id: int, enrolment: Option<Value>, enrolled: Option<Value>, cardExpiry: Option<Value>,
                             person: int)

  /** The `aluno` object parsed from the multipart field: `id` is the ALUNO id,
      `pessoaId` the PESSOA id. */
  datatype StudentForm = StudentForm(id: Option<Value>, pessoaId: Option<Value>, nome: Option<Value>,
                                     contato: Option<Value>, observacao: Option<Value>, matricula: Option<Value>,
                                     datamatricula: Option<Value>, datavencimento: Option<Value>,
                                     situacao: Option<Value>, imageChanged: Option<Value>)

  /** `postAluno`'s reply: the form, the new ids, the shown picture, `situacao` 1. */
  datatype Created = Created(form: StudentForm, id: int, personId: int, imagem: Option<string>, situacao: int)

  /** `putAluno`'s reply: the form with `imagem` replaced. */
  datatype Updated = Updated(form: StudentForm, imagem: Option<string>)

  /** A row of `getAluno`'s query, and the same row as listed. */
  datatype Listed = Listed(student: Student, person: Person)
  datatype ListedView = ListedView(student: Student, person: Person, imagem: Option<string>)

  /** `getAluno`'s formatting: each row keeps its fields and shows its picture by URL. */
  function Formatted(rows: seq<Listed>): (vs: seq<ListedView>)
    ensures |vs| == |rows|
    ensures forall i :: 0 <= i < |rows| ==>
      vs[i].student == rows[i].student && vs[i].person == rows[i].person && vs[i].imagem == Shown(rows[i].person.image)
  {
    seq(|rows|, i requires 0 <= i < |rows| => ListedView(rows[i].student, rows[i].person, Shown(rows[i].person.image)))
  }

  /** The listed URL names the stored file: the client can read the file id back. */
  lemma FormattedReadsBack(rows: seq<Listed>, i: int)
    requires 0 <= i < |rows|
    ensures Formatted(rows)[i].imagem.Some? <==> HasImage(rows[i].person.image)
    ensures Formatted(rows)[i].imagem.Some? ==> ImageIdOf(Formatted(rows)[i].imagem.value) == rows[i].person.image
  {
    if HasImage(rows[i].person.image) {
      ImageUrlRoundTrip(rows[i].person.image.value);
    }
  }

  /** `UPDATE PESSOA SET IMAGEM = NULL WHERE ID = $2`, outside any transaction. */
  function ClearImage(persons: map<int, Person>, k: Key): (r: map<int, Person>)
    ensures r.Keys == persons.Keys
    ensures forall p :: p in persons ==> r[p].id == persons[p].id
  {
    if k.Key? && k.id in persons then persons[k.id := persons[k.id].(image := None)] else persons
  }

  /** `UPDATE PESSOA SET NOME, CONTATO, IMAGEM = COALESCE($3, IMAGEM), OBSERVACAO, SITUACAO WHERE ID = $6`. */
  function UpdatePerson(persons: map<int, Person>, id: int, f: StudentForm, imageParam: Option<string>): (r: map<int, Person>)
    ensures r.Keys == persons.Keys
    ensures forall p :: p in persons ==> r[p].id == persons[p].id
  {
    if id in persons then
      persons[id := persons[id].(name := f.nome, contact := f.contato, image := Coalesce(imageParam, persons[id].image),
                                 note := f.observacao, situacao := f.situacao)]
    else persons
  }

  /** `UPDATE ALUNO SET MATRICULA, VENCIMENTO_CARTEIRINHA, DATA_MATRICULA WHERE PESSOA_ID = $4`,
      with `$4` the form's `id`. */
  function UpdateStudents(students: map<int, Student>, k: Key, f: StudentForm): (r: map<int, Student>)
    ensures r.Keys == students.Keys
    ensures forall s :: s in students ==> r[s].id == students[s].id && r[s].person == students[s].person
  {
    map s | s in students ::
      if k == Key(students[s].person)
      then students[s].(enrolment := f.matricula, cardExpiry := f.datavencimento, enrolled := f.datamatricula)
      else students[s]
  }

  /** `DELETE FROM ALUNO WHERE PESSOA_ID = $1`. */
  function StudentsWithout(students: map<int, Student>, person: int): (r: map<int, Student>)
    ensures forall s :: s in r <==> s in students && students[s].person != person
    ensures forall s :: s in r ==> r[s] == students[s]
  {
    map s | s in students && students[s].person != person :: students[s]
  }

  predicate Referenced(students: map<int, Student>, person: int)
  {
    exists s :: s in students && students[s].person == person
  }

  /** The picture `putAluno` replies with, by decision. */
  function ReplyImage(d: Decision, stored: Option<string>, uploaded: string): (r: Option<string>)
    ensures d == Sent ==> r == Some(ImageUrl(uploaded))
    ensures d == Removed ==> r.None?
    ensures d == Kept ==> r == Shown(stored)
  {
    match d
    case Sent => Some(ImageUrl(uploaded))
    case Removed => None
    case Kept => Shown(stored)
  }

  /** The persons table once `putAluno` has run to COMMIT. */
  function PersonsAfterPut(persons: map<int, Person>, pid: int, f: StudentForm, d: Decision, uploaded: string): map<int, Person>
    requires pid in persons
  {
    var cleared := if ClearsFirst(d, persons[pid].image) then ClearImage(persons, KeyOf(f.id)) else persons;
    UpdatePerson(cleared, pid, f, ImageParam(d, uploaded))
  }

  /** Where the picture ends up for the person the form names. A sent file
      replaces it; keeping leaves it; the removal clears only when the
      student id equals the person id, since its UPDATE is keyed by `aluno.id`. */
  lemma PictureAfterPut(persons: map<int, Person>, pid: int, f: StudentForm, d: Decision, uploaded: string)
    requires pid in persons
    ensures d == Sent ==> PersonsAfterPut(persons, pid, f, d, uploaded)[pid].image == Some(uploaded)
    ensures d == Kept ==> PersonsAfterPut(persons, pid, f, d, uploaded)[pid].image == persons[pid].image
    ensures d == Removed && KeyOf(f.id) == Key(pid) ==> !HasImage(PersonsAfterPut(persons, pid, f, d, uploaded)[pid].image)
    ensures d == Removed && KeyOf(f.id) != Key(pid) ==>
      PersonsAfterPut(persons, pid, f, d, uploaded)[pid].image == persons[pid].image
  {
  }

  /** A student whose ALUNO id differs from its PESSOA id: the reply shows no
      picture and the file is deleted, yet the person row keeps the old id. */
  lemma RemovalMissesOwnRow()
    ensures var persons := map[9 := Person(9, None, None, None, Some("f1"), 0, None)];
            var f := StudentForm(Some(Num(5)), Some(Num(9)), None, None, None, None, None, None, None, Some(Num(2)));
            var d := Decide(false, f.imageChanged);
            d == Removed && ReplyImage(d, persons[9].image, "") == None &&
            FilesAfter({"f1"}, d, persons[9].image, "") == {} &&
            PersonsAfterPut(persons, 9, f, d, "")[9].image == Some("f1")
  {
    var f := StudentForm(Some(Num(5)), Some(Num(9)), None, None, None, None, None, None, None, Some(Num(2)));
    assert KeyOf(f.id) == Key(5);
  }

  /** Whether `putAluno` gets past the token gate and the picture read (statement 0). */
  predicate PastLookup(form: Option<StudentForm>, token: Option<string>, verified: Option<Claims>,
                     persons: map<int, Person>, failAt: Option<nat>)
  {
    form.Some? && TokenGate(token, verified).None? && !Raises(failAt, 0) &&
    KeyOf(form.value.pessoaId).Key? && KeyOf(form.value.pessoaId).id in persons
  }

  /** Whether the removal branch of `putAluno` clears the picture: a stored
      one, a readable `aluno.id`, and statement 1 does not throw. */
  predicate ClearRuns(f: StudentForm, imageSent: bool, stored: Option<string>, failAt: Option<nat>)
  {
    ClearsFirst(Decide(imageSent, f.imageChanged), stored) && KeyOf(f.id) != BadKey && !Raises(failAt, 1)
  }

  /** Whether `putAluno`, past the picture read, reaches its 200: the upload
      succeeds, `aluno.id` is readable and no later statement throws. */
  predicate Commits(f: StudentForm, imageSent: bool, upload: Option<string>, stored: Option<string>, failAt: Option<nat>)
  {
    !(imageSent && upload.None?) && KeyOf(f.id) != BadKey &&
    !(failAt.Some? && failAt.value <= if ClearsFirst(Decide(imageSent, f.imageChanged), stored) then 5 else 4)
  }

  /** The PESSOA rows as `putAluno` leaves them before BEGIN; a later failure
      does not undo the clearing UPDATE, which runs outside the transaction. */
  function PersonsBeforeBegin(persons: map<int, Person>, f: StudentForm, imageSent: bool,
                              stored: Option<string>, failAt: Option<nat>): map<int, Person>
  {
    if ClearRuns(f, imageSent, stored, failAt) then ClearImage(persons, KeyOf(f.id)) else persons
  }

  /** The ImageKit files as `putAluno` leaves them before BEGIN: a sent picture
      deletes the stored file first, so it stays deleted when the upload throws;
      a removal deletes it only once the clearing UPDATE ran. */
  function FilesBeforeBegin(images: set<string>, f: StudentForm, imageSent: bool, upload: Option<string>,
                            stored: Option<string>, failAt: Option<nat>): set<string>
  {
    if imageSent && upload.None? then images - StoredSet(stored)
    else if imageSent then FilesAfter(images, Sent, stored, upload.value)
    else if ClearRuns(f, imageSent, stored, failAt) then FilesAfter(images, Removed, stored, "")
    else images
  }

  class StudentRegistry {
    var persons: map<int, Person>
    var students: map<int, Student>
    var nextPerson: int
    var nextStudent: int
    /** The file ids stored at ImageKit. */
    var images: set<string>

    predicate Valid()
      reads this
    {
      (forall p :: p in persons ==> persons[p].id == p && p < nextPerson) &&
      (forall s :: s in students ==> students[s].id == s && s < nextStudent && students[s].person in persons)
    }

    constructor ()
      ensures Valid() && persons == map[] && students == map[] && images == {}
    {
      persons, students := map[], map[];
      nextPerson, nextStudent := 1, 1;
      images := {};
    }

    /** `postAluno`: a missing or unparsable `aluno` field throws before the try
        (500); then the token gate; a sent picture is uploaded first (`upload`
        is what the upload returns, None when it throws: 500). Statements:
        BEGIN (0), PESSOA (1), ALUNO (2), COMMIT (3); the catch deletes the
        uploaded file and replies 500. */
    method Post(form: Option<StudentForm>, token: Option<string>, verified: Option<Claims>,
                imageSent: bool, upload: Option<string>, failAt: Option<nat>)
      returns (code: int, created: Option<Created>)
      requires Valid()
      modifies this
      ensures Valid()
      ensures form.None? ==> code == SERVER_ERROR
      ensures form.Some? && TokenGate(token, verified).Some? ==> code == UNAUTHORIZED
      ensures (form.Some? && TokenGate(token, verified).None? && !(imageSent && upload.None?) &&
               !(failAt.Some? && failAt.value <= 3)) ==> code == OK
      ensures (form.Some? && TokenGate(token, verified).None? &&
               ((imageSent && upload.None?) || (failAt.Some? && failAt.value <= 3))) ==> code == SERVER_ERROR
      ensures code == OK ==>
        var f := form.value;
        var picture := if imageSent then upload else None;
        persons == old(persons)[old(nextPerson) := Person(old(nextPerson), f.nome, f.contato, f.observacao, picture, 0, None)] &&
        students == old(students)[old(nextStudent) := Student(old(nextStudent), f.matricula, f.datamatricula, f.datavencimento, old(nextPerson))] &&
        (imageSent ==> upload.Some?) && images == old(images) + StoredPicture(picture) &&
        created == Some(Created(f, old(nextStudent), old(nextPerson), Shown(picture), 1))
      ensures code != OK ==> persons == old(persons) && students == old(students) && images == old(images) && created.None?
    {
      created := None;
      if form.None? {
        return SERVER_ERROR, None;
      }
      var gate := TokenGate(token, verified);
      if gate.Some? {
        return gate.value, None;
      }
      var f := form.value;
      var picture: Option<string> := None;
      if imageSent {
        if upload.None? {
          return SERVER_ERROR, None;
        }
        picture := upload;
      }
      var savedImages := images;
      images := images + StoredPicture(picture);
      if Raises(failAt, 0) || Raises(failAt, 1) || Raises(failAt, 2) || Raises(failAt, 3) {
        images := savedImages;
        return SERVER_ERROR, None;
      }
      var pid, sid := nextPerson, nextStudent;
      persons := persons[pid := Person(pid, f.nome, f.contato, f.observacao, picture, 0, None)];
      students := students[sid := Student(sid, f.matricula, f.datamatricula, f.datavencimento, pid)];
      nextPerson, nextStudent := pid + 1, sid + 1;
      code := OK;
      created := Some(Created(f, sid, pid, Shown(picture), 1));
    }

    /** `putAluno`. After the token gate, statement 0 reads the stored picture of
        `pessoaId`; no such row throws (500). The decision then deletes and
        uploads files, and in the removal branch clears a picture by `aluno.id`
        outside the transaction (statement 1). Then BEGIN, the PESSOA update,
        the ALUNO update and COMMIT; the catch has no ROLLBACK and replies 500. */
    method Put(form: Option<StudentForm>, token: Option<string>, verified: Option<Claims>,
               imageSent: bool, upload: Option<string>, failAt: Option<nat>)
      returns (code: int, updated: Option<Updated>)
      requires Valid()
      modifies this
      ensures Valid() && nextPerson == old(nextPerson) && nextStudent == old(nextStudent)
      ensures form.None? ==> code == SERVER_ERROR
      ensures form.Some? && TokenGate(token, verified).Some? ==> code == UNAUTHORIZED
      ensures code == OK ==>
        form.Some? && KeyOf(form.value.pessoaId).Key? && KeyOf(form.value.pessoaId).id in old(persons) &&
        (imageSent ==> upload.Some?)
      ensures code == OK ==>
        var f := form.value;
        var pid := KeyOf(f.pessoaId).id;
        var d := Decide(imageSent, f.imageChanged);
        var stored := old(persons)[pid].image;
        persons == PersonsAfterPut(old(persons), pid, f, d, if imageSent then upload.value else "") &&
        students == UpdateStudents(old(students), KeyOf(f.id), f) &&
        images == FilesAfter(old(images), d, stored, if imageSent then upload.value else "") &&
        updated == Some(Updated(f, ReplyImage(d, stored, if imageSent then upload.value else "")))
      ensures code == OK <==> PastLookup(form, token, verified, old(persons), failAt) &&
                              Commits(form.value, imageSent, upload, old(persons)[KeyOf(form.value.pessoaId).id].image, failAt)
      ensures form.Some? && TokenGate(token, verified).None? && code != OK ==> code == SERVER_ERROR
      ensures code != OK ==> students == old(students) && updated.None?
      // What survives a failure: the file work and the clearing UPDATE run before BEGIN.
      ensures code != OK && !PastLookup(form, token, verified, old(persons), failAt) ==>
        persons == old(persons) && images == old(images)
      ensures code != OK && PastLookup(form, token, verified, old(persons), failAt) ==>
        var stored := old(persons)[KeyOf(form.value.pessoaId).id].image;
        persons == PersonsBeforeBegin(old(persons), form.value, imageSent, stored, failAt) &&
        images == FilesBeforeBegin(old(images), form.value, imageSent, upload, stored, failAt)
    {
      updated := None;
      if form.None? {
        return SERVER_ERROR, None;
      }
      var gate := TokenGate(token, verified);
      if gate.Some? {
        return gate.value, None;
      }
      var f := form.value;
      var k := KeyOf(f.pessoaId);
      if Raises(failAt, 0) || !k.Key? || k.id !in persons {
        return SERVER_ERROR, None;
      }
      var pid := k.id;
      var stored := persons[pid].image;
      var d := Decide(imageSent, f.imageChanged);
      var ok, uploaded, imagem := PictureStage(f, imageSent, upload, stored, failAt);
      if !ok {
        return SERVER_ERROR, None;
      }
      var b := if ClearsFirst(d, stored) then 2 else 1;
      if Raises(failAt, b) || Raises(failAt, b + 1) || KeyOf(f.id) == BadKey || Raises(failAt, b + 2) || Raises(failAt, b + 3) {
        return SERVER_ERROR, None;
      }
      persons := UpdatePerson(persons, pid, f, ImageParam(d, uploaded));
      students := UpdateStudents(students, KeyOf(f.id), f);
      code := OK;
      updated := Some(Updated(f, imagem));
    }

    /** The picture stage of `putAluno`, before BEGIN: a sent picture deletes
        the stored file and uploads the new one; a removal with a stored
        picture clears it by `aluno.id` (statement 1) and deletes the file;
        otherwise nothing changes. `ok` is false when the upload or the clear throws. */
    method PictureStage(f: StudentForm, imageSent: bool, upload: Option<string>, stored: Option<string>, failAt: Option<nat>)
      returns (ok: bool, uploaded: string, imagem: Option<string>)
      requires Valid()
      modifies this
      ensures Valid() && nextPerson == old(nextPerson) && nextStudent == old(nextStudent) && students == old(students)
      ensures persons == PersonsBeforeBegin(old(persons), f, imageSent, stored, failAt)
      ensures images == FilesBeforeBegin(old(images), f, imageSent, upload, stored, failAt)
      ensures ok <==> !(imageSent && upload.None?) &&
                      !(ClearsFirst(Decide(imageSent, f.imageChanged), stored) && (KeyOf(f.id) == BadKey || Raises(failAt, 1)))
      ensures uploaded == if imageSent && upload.Some? then upload.value else ""
      ensures ok ==> imagem == ReplyImage(Decide(imageSent, f.imageChanged), stored, uploaded)
    {
      var d := Decide(imageSent, f.imageChanged);
      uploaded, imagem := "", None;
      if d == Sent {
        images := images - StoredSet(stored);
        if upload.None? {
          return false, uploaded, imagem;
        }
        uploaded := upload.value;
        images := images + {uploaded};
        imagem := Some(ImageUrl(uploaded));
      } else if d == Removed {
        if HasImage(stored) {
          var kc := KeyOf(f.id);
          if kc == BadKey || Raises(failAt, 1) {
            return false, uploaded, imagem;
          }
          persons := ClearImage(persons, kc);
          images := images - StoredSet(stored);
        }
      } else {
        imagem := Shown(stored);
      }
      ok := true;
    }

    /** `deleteAluno`: a falsy `pessoaID` gives 400, then the gate; BEGIN (0),
        the picture read (1), the ALUNO rows (2), the PESSOA row (3), the file,
        COMMIT (4). The catch replies 200, so only `deleted` tells the outcomes apart. */
    method Delete(pessoaID: Option<Value>, token: Option<string>, verified: Option<Claims>, failAt: Option<nat>)
      returns (code: int, deleted: bool)
      requires Valid()
      modifies this
      ensures Valid() && nextPerson == old(nextPerson) && nextStudent == old(nextStudent)
      ensures pessoaID.None? || !Truthy(pessoaID.value) ==> code == BAD_REQUEST && !deleted
      ensures pessoaID.Some? && Truthy(pessoaID.value) && TokenGate(token, verified).Some? ==> code == UNAUTHORIZED && !deleted
      ensures pessoaID.Some? && Truthy(pessoaID.value) && TokenGate(token, verified).None? ==> code == OK
      ensures deleted <==> pessoaID.Some? && Truthy(pessoaID.value) && TokenGate(token, verified).None? &&
                           KeyOf(pessoaID).Key? && KeyOf(pessoaID).id in old(persons) &&
                           !(failAt.Some? && failAt.value <= 4)
      ensures deleted ==>
        var pid := KeyOf(pessoaID).id;
        students == StudentsWithout(old(students), pid) && persons == old(persons) - {pid} &&
        images == old(images) - StoredSet(old(persons)[pid].image)
      ensures !deleted ==> students == old(students) && persons == old(persons)
      // The file is deleted before COMMIT, so a failing COMMIT leaves it deleted.
      ensures !deleted ==>
        images == (if pessoaID.Some? && Truthy(pessoaID.value) && TokenGate(token, verified).None? &&
                      KeyOf(pessoaID).Key? && KeyOf(pessoaID).id in old(persons) && failAt == Some(4)
                   then old(images) - StoredSet(old(persons)[KeyOf(pessoaID).id].image)
                   else old(images))
    {
      if pessoaID.None? || !Truthy(pessoaID.value) {
        return BAD_REQUEST, false;
      }
      var gate := TokenGate(token, verified);
      if gate.Some? {
        return gate.value, false;
      }
      var k := KeyOf(pessoaID);
      if Raises(failAt, 0) || Raises(failAt, 1) || !k.Key? || Raises(failAt, 2) {
        return OK, false;
      }
      var savedStudents, savedPersons := students, persons;
      students := StudentsWithout(students, k.id);
      // The foreign key of ALUNO: no row points at the person any more.
      assert !Referenced(students, k.id);
      if Raises(failAt, 3) || k.id !in persons {
        students := savedStudents;
        return OK, false;
      }
      var stored := persons[k.id].image;
      persons := persons - {k.id};
      images := images - StoredSet(stored);
      if Raises(failAt, 4) {
        students := savedStudents;
        persons := savedPersons;
        return OK, false;
      }
      code, deleted := OK, true;
    }
  }

  function StoredPicture(picture: Option<string>): (s: set<string>)
    ensures picture.Some? ==> s == {picture.value}
    ensures picture.None? ==> s == {}
  {
    if picture.Some? then {picture.value} else {}
  }
}
