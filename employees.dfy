/** The PESSOA and FUNCIONARIO tables, and the ImageKit files behind person
    pictures, as the employee controller changes them. Rows are keyed by
    CODIGOPESSOA and CODIGOFUNCIONARIO; FUNCIONARIO.CODIGOPESSOA references
    PESSOA. Statements are counted from 0 for the fault oracle `failAt`. */
module Employees {
  import opened Common
  import opened Images

  datatype Person = Person(id: int, name: Option<Value>, contact: Option<Value>, note: Option<Value>,
                           image: Option<string>, tipo: int, situacao: Option<Value>)

  datatype Employee = Employee(id: int, email: Option<string>, admitted: Option<Value>, privilege: Option<Value>,
                               password: string, person: int)

  /** The `funcionario` object parsed from the multipart field. */
  datatype EmployeeForm = EmployeeForm(codigofuncionario: Option<Value>, codigopessoa: Option<Value>,
                                       nome: Option<Value>, contato: Option<Value>, observacao: Option<Value>,
                                       email: Option<string>, dataadmissao: Option<Value>, privilegio: Option<Value>,
                                       situacao: Option<Value>, imageChanged: Option<Value>)

  /** `{ ...funcionarioRow, ...pessoaRow }` without `senha`. */
  datatype StaffView = StaffView(person: Person, employeeId: int, email: Option<string>, admitted: Option<Value>,
                                 privilege: Option<Value>)

  datatype Updated = Updated(form: EmployeeForm, imagem: Option<string>)

  /** The body of `resetSenhaFuncionario`. */
  datatype ResetBody = ResetBody(email: Option<string>, codigofuncionario: Option<Value>)

  /** The reply of a creation: every column of both rows except the password. */
  function View(p: Person, e: Employee): (v: StaffView)
    ensures v.person == p && v.employeeId == e.id && v.email == e.email
    ensures v.admitted == e.admitted && v.privilege == e.privilege
  {
    StaffView(p, e.id, e.email, e.admitted, e.privilege)
  }

  /** The reply never depends on the stored password. */
  lemma ViewOmitsPassword(p: Person, e: Employee, other: string)
    ensures View(p, e) == View(p, e.(password := other))
  {
  }

  /** The update replies the raw file id (no URL), by decision. */
  function ReplyImage(d: Decision, stored: Option<string>, uploaded: string): (r: Option<string>)
    ensures d == Sent ==> r == Some(uploaded)
    ensures d == Removed ==> r.None?
    ensures d == Kept ==> (r.Some? <==> HasImage(stored)) && (r.Some? ==> r == stored)
  {
    match d
    case Sent => Some(uploaded)
    case Removed => None
    case Kept => if HasImage(stored) then stored else None
  }

  /** The persons table once `putFuncionario` has run to COMMIT: the removal
      clears the picture of the same CODIGOPESSOA the main update names. */
  function PersonsAfterPut(persons: map<int, Person>, pid: int, f: EmployeeForm, d: Decision, uploaded: string): (r: map<int, Person>)
    requires pid in persons
    ensures r.Keys == persons.Keys
    ensures forall q :: q in persons && q != pid ==> r[q] == persons[q]
  {
    var cleared := if ClearsFirst(d, persons[pid].image) then persons[pid := persons[pid].(image := None)] else persons;
    cleared[pid := cleared[pid].(name := f.nome, contact := f.contato, image := Coalesce(ImageParam(d, uploaded), cleared[pid].image),
                                 note := f.observacao, situacao := f.situacao)]
  }

  /** The three branches: a sent file replaces the picture, removal leaves none, keeping leaves it. */
  lemma PictureAfterPut(persons: map<int, Person>, pid: int, f: EmployeeForm, d: Decision, uploaded: string)
    requires pid in persons
    ensures d == Sent ==> PersonsAfterPut(persons, pid, f, d, uploaded)[pid].image == Some(uploaded)
    ensures d == Removed ==> !HasImage(PersonsAfterPut(persons, pid, f, d, uploaded)[pid].image)
    ensures d == Kept ==> PersonsAfterPut(persons, pid, f, d, uploaded)[pid].image == persons[pid].image
  {
  }

  /** `UPDATE FUNCIONARIO SET EMAIL, PRIVILEGIO, DATAADMISSAO WHERE CODIGOFUNCIONARIO = $4`. */
  function EmployeesAfterPut(employees: map<int, Employee>, k: Key, f: EmployeeForm): (r: map<int, Employee>)
    ensures r.Keys == employees.Keys
    ensures forall e :: e in employees && k != Key(e) ==> r[e] == employees[e]
  {
    if k.Key? && k.id in employees
    then employees[k.id := employees[k.id].(email := f.email, privilege := f.privilegio, admitted := f.dataadmissao)]
    else employees
  }

  /** `UPDATE FUNCIONARIO SET SENHA = $1 WHERE EMAIL = $2 AND CODIGOFUNCIONARIO = $3`. */
  predicate ResetMatches(e: Employee, b: ResetBody)
  {
    b.email.Some? && e.email == b.email && KeyOf(b.codigofuncionario) == Key(e.id)
  }

  function Reset(employees: map<int, Employee>, b: ResetBody, hash: string): (r: map<int, Employee>)
    ensures r.Keys == employees.Keys
  {
    map e | e in employees :: if ResetMatches(employees[e], b) then employees[e].(password := hash) else employees[e]
  }

  /** Only a row whose email and id both match gets the new password; no other field moves. */
  lemma ResetOnlyMatching(employees: map<int, Employee>, b: ResetBody, hash: string)
    requires forall e :: e in employees ==> employees[e].id == e
    ensures forall e :: e in employees ==>
      Reset(employees, b, hash)[e] == (if ResetMatches(employees[e], b) then employees[e].(password := hash) else employees[e])
    ensures forall e :: e in employees && Reset(employees, b, hash)[e] != employees[e] ==>
      employees[e].email == b.email && KeyOf(b.codigofuncionario) == Key(e)
  {
  }

  /** A reset for the right id with the wrong email changes nothing. */
  lemma ResetNeedsEmail()
    ensures var es := map[3 := Employee(3, Some("a@x"), None, None, "h0", 1)];
            Reset(es, ResetBody(Some("b@x"), Some(Num(3))), "h1") == es
  {
    var es := map[3 := Employee(3, Some("a@x"), None, None, "h0", 1)];
    assert !ResetMatches(es[3], ResetBody(Some("b@x"), Some(Num(3))));
    assert Reset(es, ResetBody(Some("b@x"), Some(Num(3))), "h1")[3] == es[3];
  }

  function EmployeesWithout(employees: map<int, Employee>, person: int): (r: map<int, Employee>)
    ensures forall e :: e in r <==> e in employees && employees[e].person != person
    ensures forall e :: e in r ==> r[e] == employees[e]
  {
    map e | e in employees && employees[e].person != person :: employees[e]
  }

  predicate Referenced(employees: map<int, Employee>, person: int)
  {
    exists e :: e in employees && employees[e].person == person
  }

  /** Whether `putFuncionario` gets past the token gate and the picture read (statement 0). */
  predicate PastLookup(form: Option<EmployeeForm>, token: Option<string>, verified: Option<Claims>,
                     persons: map<int, Person>, failAt: Option<nat>)
  {
    form.Some? && TokenGate(token, verified).None? && !Raises(failAt, 0) &&
    KeyOf(form.value.codigopessoa).Key? && KeyOf(form.value.codigopessoa).id in persons
  }

  class StaffRegistry {
    var persons: map<int, Person>
    var employees: map<int, Employee>
    var nextPerson: int
    var nextEmployee: int
    var images: set<string>

    predicate Valid()
      reads this
    {
      (forall p :: p in persons ==> persons[p].id == p && p < nextPerson) &&
      (forall e :: e in employees ==> employees[e].id == e && e < nextEmployee && employees[e].person in persons)
    }

    constructor ()
      ensures Valid() && persons == map[] && employees == map[] && images == {}
    {
      persons, employees := map[], map[];
      nextPerson, nextEmployee := 1, 1;
      images := {};
    }

    /** `postFuncionario`: a missing or unparsable field throws before the try
        (500); the token gate; a sent picture is uploaded (None: the upload
        threw, 500). BEGIN (0), PESSOA with TIPOPESSOA 2 (1), FUNCIONARIO with
        the hashed temporary password `hash` (2), COMMIT (3); the catch deletes
        the uploaded file and replies 500. */
    method Post(form: Option<EmployeeForm>, token: Option<string>, verified: Option<Claims>,
                imageSent: bool, upload: Option<string>, hash: string, failAt: Option<nat>)
      returns (code: int, created: Option<StaffView>)
      requires Valid()
      modifies this
      ensures Valid()
      ensures form.None? ==> code == SERVER_ERROR
      ensures form.Some? && TokenGate(token, verified).Some? ==> code == UNAUTHORIZED
      ensures (form.Some? && TokenGate(token, verified).None? && !(imageSent && upload.None?) &&
               !(failAt.Some? && failAt.value <= 3)) ==> code == OK
      ensures (form.Some? && TokenGate(token, verified).None? &&
               ((imageSent && upload.None?) || (failAt.Some? && failAt.value <= 3))) ==> code == SERVER_ERROR
      ensures code == OK ==> form.Some? && (imageSent ==> upload.Some?)
      ensures code == OK ==>
        var f := form.value;
        var p := Person(old(nextPerson), f.nome, f.contato, f.observacao, if imageSent then upload else None, 2, None);
        var e := Employee(old(nextEmployee), f.email, f.dataadmissao, f.privilegio, hash, old(nextPerson));
        persons == old(persons)[p.id := p] && employees == old(employees)[e.id := e] &&
        images == old(images) + (if imageSent then {upload.value} else {}) &&
        created == Some(View(p, e))
      ensures code != OK ==> persons == old(persons) && employees == old(employees) && images == old(images) && created.None?
    {
      created := None;
      if form.None? {
        return SERVER_ERROR, None;
      }
      var gate := TokenGate(token, verified);
      if gate.Some? {
        return gate.value, None;
      }
      var f := form.value;
      var picture: Option<string> := None;
      if imageSent {
        if upload.None? {
          return SERVER_ERROR, None;
        }
        picture := upload;
      }
      if Raises(failAt, 0) || Raises(failAt, 1) || Raises(failAt, 2) || Raises(failAt, 3) {
        return SERVER_ERROR, None;
      }
      var p := Person(nextPerson, f.nome, f.contato, f.observacao, picture, 2, None);
      var e := Employee(nextEmployee, f.email, f.dataadmissao, f.privilegio, hash, nextPerson);
      persons := persons[p.id := p];
      employees := employees[e.id := e];
      images := images + (if imageSent then {upload.value} else {});
      nextPerson, nextEmployee := nextPerson + 1, nextEmployee + 1;
      code := OK;
      created := Some(View(p, e));
    }

    /** `putFuncionario`: after the token gate, statement 0 reads the stored
        picture by CODIGOPESSOA (no row: 500). The removal branch clears it by
        the same key (statement 1) outside the transaction. Then BEGIN, the
        PESSOA update, the FUNCIONARIO update, COMMIT; the catch replies 500. */
    method Put(form: Option<EmployeeForm>, token: Option<string>, verified: Option<Claims>,
               imageSent: bool, upload: Option<string>, failAt: Option<nat>)
      returns (code: int, updated: Option<Updated>)
      requires Valid()
      modifies this
      ensures Valid() && nextPerson == old(nextPerson) && nextEmployee == old(nextEmployee)
      ensures form.None? ==> code == SERVER_ERROR
      ensures form.Some? && TokenGate(token, verified).Some? ==> code == UNAUTHORIZED
      ensures code == OK ==>
        form.Some? && KeyOf(form.value.codigopessoa).Key? && KeyOf(form.value.codigopessoa).id in old(persons) &&
        (imageSent ==> upload.Some?)
      ensures code == OK ==>
        var f := form.value;
        var pid := KeyOf(f.codigopessoa).id;
        var d := Decide(imageSent, f.imageChanged);
        var up := if imageSent then upload.value else "";
        persons == PersonsAfterPut(old(persons), pid, f, d, up) &&
        employees == EmployeesAfterPut(old(employees), KeyOf(f.codigofuncionario), f) &&
        images == FilesAfter(old(images), d, old(persons)[pid].image, up) &&
        updated == Some(Updated(f, ReplyImage(d, old(persons)[pid].image, up)))
      ensures (form.Some? && TokenGate(token, verified).None? && KeyOf(form.value.codigopessoa).Key? &&
               KeyOf(form.value.codigopessoa).id in old(persons) && !(imageSent && upload.None?) &&
               KeyOf(form.value.codigofuncionario) != BadKey &&
               !(failAt.Some? && failAt.value <= if ClearsFirst(Decide(imageSent, form.value.imageChanged),
                                                                 old(persons)[KeyOf(form.value.codigopessoa).id].image)
                                                then 5 else 4)) ==> code == OK
      ensures (form.Some? && TokenGate(token, verified).None? &&
               !(KeyOf(form.value.codigopessoa).Key? && KeyOf(form.value.codigopessoa).id in old(persons))) ==>
        code == SERVER_ERROR
      ensures (form.Some? && TokenGate(token, verified).None? && KeyOf(form.value.codigopessoa).Key? &&
               KeyOf(form.value.codigopessoa).id in old(persons) &&
               ((imageSent && upload.None?) || KeyOf(form.value.codigofuncionario) == BadKey ||
                (failAt.Some? && failAt.value <= if ClearsFirst(Decide(imageSent, form.value.imageChanged),
                                                                 old(persons)[KeyOf(form.value.codigopessoa).id].image)
                                                 then 5 else 4))) ==> code == SERVER_ERROR
      ensures code != OK ==> employees == old(employees) && updated.None?
      // What survives a failure: the file work and the clearing UPDATE run before BEGIN.
      ensures code != OK && !PastLookup(form, token, verified, old(persons), failAt) ==>
        persons == old(persons) && images == old(images)
      ensures code != OK && PastLookup(form, token, verified, old(persons), failAt) ==>
        var f := form.value;
        var pid := KeyOf(f.codigopessoa).id;
        var d := Decide(imageSent, f.imageChanged);
        var stored := old(persons)[pid].image;
        var cleared := ClearsFirst(d, stored) && !Raises(failAt, 1);
        persons == (if cleared then old(persons)[pid := old(persons)[pid].(image := None)] else old(persons)) &&
        images == (if d == Sent && upload.None? then old(images) - StoredSet(stored)
                   else if d == Sent || cleared then FilesAfter(old(images), d, stored, if imageSent then upload.value else "")
                   else old(images))
    {
      updated := None;
      if form.None? {
        return SERVER_ERROR, None;
      }
      var gate := TokenGate(token, verified);
      if gate.Some? {
        return gate.value, None;
      }
      var f := form.value;
      var k := KeyOf(f.codigopessoa);
      if Raises(failAt, 0) || !k.Key? || k.id !in persons {
        return SERVER_ERROR, None;
      }
      var pid := k.id;
      var stored := persons[pid].image;
      var d := Decide(imageSent, f.imageChanged);
      var uploaded := "";
      if d == Sent {
        images := images - StoredSet(stored);
        if upload.None? {
          return SERVER_ERROR, None;
        }
        uploaded := upload.value;
        images := images + {uploaded};
      } else if d == Removed && HasImage(stored) {
        if Raises(failAt, 1) {
          return SERVER_ERROR, None;
        }
        persons := persons[pid := persons[pid].(image := None)];
        images := images - StoredSet(stored);
      }
      var b := if ClearsFirst(d, stored) then 2 else 1;
      var ke := KeyOf(f.codigofuncionario);
      if Raises(failAt, b) || Raises(failAt, b + 1) || ke == BadKey || Raises(failAt, b + 2) || Raises(failAt, b + 3) {
        return SERVER_ERROR, None;
      }
      persons := persons[pid := persons[pid].(name := f.nome, contact := f.contato,
                                              image := Coalesce(ImageParam(d, uploaded), persons[pid].image),
                                              note := f.observacao, situacao := f.situacao)];
      employees := EmployeesAfterPut(employees, ke, f);
      code := OK;
      updated := Some(Updated(f, ReplyImage(d, stored, uploaded)));
    }

    /** `resetSenhaFuncionario`: no token is read. Destructuring a missing body
        throws before the try (500). BEGIN (0), the UPDATE ... RETURNING (1):
        no `funcionario` or no matching row throws. The e-mail is handed to the
        mailer without waiting on its outcome, and the 200 reply goes out before
        COMMIT (2), so a failing COMMIT still replies 200 and the catch rolls the
        change back. */
    method ResetPassword(body: Payload<ResetBody>, hash: string, failAt: Option<nat>) returns (code: int)
      requires Valid()
      modifies this
      ensures Valid() && persons == old(persons) && nextPerson == old(nextPerson) && nextEmployee == old(nextEmployee)
      ensures body.NoBody? ==> code == SERVER_ERROR
      ensures code == OK <==> body.Body? && body.item.Some? &&
                              (exists e :: e in old(employees) && ResetMatches(old(employees)[e], body.item.value)) &&
                              !(failAt.Some? && failAt.value <= 1)
      ensures code == OK && failAt != Some(2) ==> employees == Reset(old(employees), body.item.value, hash)
      ensures code != OK || failAt == Some(2) ==> employees == old(employees)
    {
      if body.NoBody? {
        return SERVER_ERROR;
      }
      if Raises(failAt, 0) || body.item.None? || Raises(failAt, 1) {
        return SERVER_ERROR;
      }
      var b := body.item.value;
      if !exists e :: e in employees && ResetMatches(employees[e], b) {
        return SERVER_ERROR;
      }
      code := OK;
      if Raises(failAt, 2) {
        return;
      }
      employees := Reset(employees, b, hash);
    }

    /** `deleteFuncionario`: a falsy `codigopessoa` gives 400, then the gate;
        BEGIN (0), the picture read (1), FUNCIONARIO (2), PESSOA (3), the file,
        COMMIT (4). The catch rolls back and replies 200. */
    method Delete(codigopessoa: Option<Value>, token: Option<string>, verified: Option<Claims>, failAt: Option<nat>)
      returns (code: int, deleted: bool)
      requires Valid()
      modifies this
      ensures Valid() && nextPerson == old(nextPerson) && nextEmployee == old(nextEmployee)
      ensures codigopessoa.None? || !Truthy(codigopessoa.value) ==> code == BAD_REQUEST && !deleted
      ensures codigopessoa.Some? && Truthy(codigopessoa.value) && TokenGate(token, verified).Some? ==>
        code == UNAUTHORIZED && !deleted
      ensures codigopessoa.Some? && Truthy(codigopessoa.value) && TokenGate(token, verified).None? ==> code == OK
      ensures deleted <==> codigopessoa.Some? && Truthy(codigopessoa.value) && TokenGate(token, verified).None? &&
                           KeyOf(codigopessoa).Key? && KeyOf(codigopessoa).id in old(persons) &&
                           !(failAt.Some? && failAt.value <= 4)
      ensures deleted ==>
        var pid := KeyOf(codigopessoa).id;
        employees == EmployeesWithout(old(employees), pid) && persons == old(persons) - {pid} &&
        images == old(images) - StoredSet(old(persons)[pid].image)
      ensures !deleted ==> employees == old(employees) && persons == old(persons)
      // The file is deleted before COMMIT, so a failing COMMIT leaves it deleted.
      ensures !deleted ==>
        images == (if codigopessoa.Some? && Truthy(codigopessoa.value) && TokenGate(token, verified).None? &&
                      KeyOf(codigopessoa).Key? && KeyOf(codigopessoa).id in old(persons) && failAt == Some(4)
                   then old(images) - StoredSet(old(persons)[KeyOf(codigopessoa).id].image)
                   else old(images))
    {
      if codigopessoa.None? || !Truthy(codigopessoa.value) {
        return BAD_REQUEST, false;
      }
      var gate := TokenGate(token, verified);
      if gate.Some? {
        return gate.value, false;
      }
      var k := KeyOf(codigopessoa);
      if Raises(failAt, 0) || Raises(failAt, 1) || !k.Key? || Raises(failAt, 2) {
        return OK, false;
      }
      var savedEmployees, savedPersons := employees, persons;
      employees := EmployeesWithout(employees, k.id);
      // The foreign key of FUNCIONARIO: no row points at the person any more.
      assert !Referenced(employees, k.id);
      if Raises(failAt, 3) || k.id !in persons {
        employees := savedEmployees;
        return OK, false;
      }
      var stored := persons[k.id].image;
      persons := persons - {k.id};
      images := images - StoredSet(stored);
      if Raises(failAt, 4) {
        employees, persons := savedEmployees, savedPersons;
        return OK, false;
      }
      code, deleted := OK, true;
    }
  }
}
