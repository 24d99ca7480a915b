/** The PESSOA, PROFESSOR and PROFESSOR_DISCIPLINA tables as the professor
    controller changes them. PROFESSOR.PESSOA_ID references PESSOA; a link
    references both its teacher and its person. Statements are counted from 0
    for the fault oracle `failAt`; the catch blocks reply 500 without a
    ROLLBACK, and the uncommitted writes are taken as discarded. */
module Teachers {
  import opened Common

  datatype Person = Person(id: int, name: Option<Value>, contact: Option<Value>, note: Option<Value>,
                           tipo: int, situacao: Option<Value>)

  datatype Teacher = Teacher(id: int, identificador: Option<Value>, person: int)

  /** A PROFESSOR_DISCIPLINA row. */
  datatype Link = Link(teacher: int, person: int, subject: int)

  /** An element of `professor.disciplinas`, with its `sync` flag. */
  datatype SubjectRef = SubjectRef(id: int, sync: Option<Value>)

  /** The `professor` object of the body. */
  datatype TeacherForm = TeacherForm(id: Option<Value>, pessoaId: Option<Value>, nome: Option<Value>,
                                     contato: Option<Value>, observacao: Option<Value>, situacao: Option<Value>,
                                     identificador: Option<Value>, disciplinas: Option<seq<SubjectRef>>)

  /** `sync === 1`: the link is to be inserted. */
  predicate Adds(s: SubjectRef) { s.sync == Some(Num(1)) }

  /** `sync === 2`: the link is to be deleted. */
  predicate Drops(s: SubjectRef) { s.sync == Some(Num(2)) }

  /** The links of a creation, one per listed subject, whatever their flags. */
  function NewLinks(t: int, p: int, ss: seq<SubjectRef>): (r: seq<Link>)
    ensures |r| == |ss|
    ensures forall i :: 0 <= i < |ss| ==> r[i] == Link(t, p, ss[i].id)
  {
    seq(|ss|, i requires 0 <= i < |ss| => Link(t, p, ss[i].id))
  }

  /** `DELETE ... WHERE PROFESSOR_ID = $1 AND PESSOA_ID = $2 AND DISCIPLINA_ID = $3`: every copy goes. */
  function Remove(links: seq<Link>, l: Link): (r: seq<Link>)
    ensures forall x :: x in r <==> x in links && x != l
    ensures |r| <= |links|
  {
    if links == [] then []
    else if links[0] == l then Remove(links[1..], l)
    else [links[0]] + Remove(links[1..], l)
  }

  function Step(links: seq<Link>, t: int, p: int, s: SubjectRef): seq<Link>
  {
    if Adds(s) then links + [Link(t, p, s.id)]
    else if Drops(s) then Remove(links, Link(t, p, s.id))
    else links
  }

  /** The links after the update loop has handled `ss` in order. */
  function Reconcile(links: seq<Link>, t: int, p: int, ss: seq<SubjectRef>): seq<Link>
    decreases |ss|
  {
    if ss == [] then links else Step(Reconcile(links, t, p, ss[..|ss| - 1]), t, p, ss[|ss| - 1])
  }

  /** The flag of the last element naming subject `x` that asks for a change:
      true to insert, false to delete, None when no element does. */
  function LastAction(ss: seq<SubjectRef>, x: int): Option<bool>
    decreases |ss|
  {
    if ss == [] then None
    else
      var s := ss[|ss| - 1];
      if s.id == x && Adds(s) then Some(true)
      else if s.id == x && Drops(s) then Some(false)
      else LastAction(ss[..|ss| - 1], x)
  }

  /** The last request about a subject decides whether its link exists; every
      link of another teacher, person or subject keeps its presence. */
  lemma {:induction false} ReconcileLastWins(links: seq<Link>, t: int, p: int, ss: seq<SubjectRef>, l: Link)
    ensures l in Reconcile(links, t, p, ss) <==>
            if l.teacher == t && l.person == p && LastAction(ss, l.subject).Some?
            then LastAction(ss, l.subject).value
            else l in links
    decreases |ss|
  {
    if ss != [] {
      ReconcileLastWins(links, t, p, ss[..|ss| - 1], l);
    }
  }

  /** Statements the loop issues: one per element flagged 1 or 2. */
  function Issued(ss: seq<SubjectRef>): (n: nat)
    ensures n <= |ss|
    decreases |ss|
  {
    if ss == [] then 0 else Issued(ss[..|ss| - 1]) + if Adds(ss[|ss| - 1]) || Drops(ss[|ss| - 1]) then 1 else 0
  }

  /** The reply's list: elements flagged 2 dropped, the rest with sync 0. */
  function Kept(ss: seq<SubjectRef>): seq<SubjectRef>
  {
    if ss == [] then []
    else (if Drops(ss[0]) then [] else [ss[0].(sync := Some(Num(0)))]) + Kept(ss[1..])
  }

  /** The filter keeps order: it maps concatenation to concatenation. */
  lemma {:induction false} KeptAppend(a: seq<SubjectRef>, b: seq<SubjectRef>)
    ensures Kept(a + b) == Kept(a) + Kept(b)
  {
    if a == [] {
      assert a + b == b;
    } else {
      assert (a + b)[0] == a[0];
      assert (a + b)[1..] == a[1..] + b;
      KeptAppend(a[1..], b);
    }
  }

  /** Exactly the elements not flagged 2 come back, each with sync 0. */
  lemma {:induction false} KeptMembers(ss: seq<SubjectRef>)
    ensures forall x :: x in Kept(ss) ==> x.sync == Some(Num(0))
    ensures forall s :: s in ss && !Drops(s) ==> s.(sync := Some(Num(0))) in Kept(ss)
    ensures forall x :: x in Kept(ss) ==> exists s :: s in ss && !Drops(s) && x == s.(sync := Some(Num(0)))
  {
    if ss != [] {
      KeptMembers(ss[1..]);
      forall x | x in Kept(ss)
        ensures exists s :: s in ss && !Drops(s) && x == s.(sync := Some(Num(0)))
      {
        if !Drops(ss[0]) && x == ss[0].(sync := Some(Num(0))) {
        } else {
          assert x in Kept(ss[1..]);
          var s :| s in ss[1..] && !Drops(s) && x == s.(sync := Some(Num(0)));
          assert s in ss;
        }
      }
    }
  }

  /** The comparison is strict: a flag "2" sent as a string is not dropped. */
  lemma StrictFlag()
    ensures Kept([SubjectRef(4, Some(Str("2")))]) == [SubjectRef(4, Some(Num(0)))]
    ensures Issued([SubjectRef(4, Some(Str("2")))]) == 0
  {
  }

  /** Every link names an existing teacher and person. */
  predicate LinksInto(links: seq<Link>, teachers: map<int, Teacher>, persons: map<int, Person>)
  {
    forall l :: l in links ==> l.teacher in teachers && l.person in persons
  }

  predicate AnyAdds(ss: seq<SubjectRef>) { exists i :: 0 <= i < |ss| && Adds(ss[i]) }

  /** The update loop keeps every link pointing at existing rows, provided an
      insert only happens for a teacher and person that exist. */
  lemma {:induction false} ReconcileInto(links: seq<Link>, t: int, p: int, ss: seq<SubjectRef>,
                                         teachers: map<int, Teacher>, persons: map<int, Person>)
    requires LinksInto(links, teachers, persons)
    requires AnyAdds(ss) ==> t in teachers && p in persons
    ensures LinksInto(Reconcile(links, t, p, ss), teachers, persons)
    decreases |ss|
  {
    if ss != [] {
      var init := ss[..|ss| - 1];
      if AnyAdds(init) {
        var i :| 0 <= i < |init| && Adds(init[i]);
        assert Adds(ss[i]);
      }
      ReconcileInto(links, t, p, init, teachers, persons);
      if Adds(ss[|ss| - 1]) {
        assert AnyAdds(ss);
      }
    }
  }

  /** The PROFESSOR delete raises when a link left behind still names one of the teachers it removes. */
  predicate TeacherStillLinked(links: seq<Link>, teachers: map<int, Teacher>, p: int)
  {
    exists l :: l in links && l.teacher in teachers && teachers[l.teacher].person == p
  }

  /** Each link names its teacher's own person, as the creation writes it. */
  predicate Consistent(links: seq<Link>, teachers: map<int, Teacher>)
  {
    forall l :: l in links ==> l.teacher in teachers && teachers[l.teacher].person == l.person
  }

  function LinksWithoutPerson(links: seq<Link>, p: int): (r: seq<Link>)
    ensures forall x :: x in r <==> x in links && x.person != p
  {
    if links == [] then []
    else (if links[0].person == p then [] else [links[0]]) + LinksWithoutPerson(links[1..], p)
  }

  function TeachersWithoutPerson(teachers: map<int, Teacher>, p: int): (r: map<int, Teacher>)
    ensures forall t :: t in r <==> t in teachers && teachers[t].person != p
    ensures forall t :: t in r ==> r[t] == teachers[t]
  {
    map t | t in teachers && teachers[t].person != p :: teachers[t]
  }

  /** On consistent links, deleting the person's links first clears the way for the teacher delete. */
  lemma ConsistentDeleteOrder(links: seq<Link>, teachers: map<int, Teacher>, p: int)
    requires Consistent(links, teachers)
    ensures !TeacherStillLinked(LinksWithoutPerson(links, p), teachers, p)
  {
  }

  /** A link whose person is not its teacher's (an update can write one) blocks the delete. */
  lemma InconsistentLinkBlocksDelete()
    ensures var teachers := map[7 := Teacher(7, None, 1)];
            TeacherStillLinked(LinksWithoutPerson([Link(7, 2, 5)], 1), teachers, 1)
  {
    var rest := LinksWithoutPerson([Link(7, 2, 5)], 1);
    assert Link(7, 2, 5) in rest;
  }

  /** `UPDATE PESSOA SET NOME, CONTATO, OBSERVACAO, SITUACAO WHERE ID = $5`. */
  function PersonsAfterPut(persons: map<int, Person>, k: Key, f: TeacherForm): (r: map<int, Person>)
    ensures r.Keys == persons.Keys
    ensures forall q :: q in persons && k != Key(q) ==> r[q] == persons[q]
    ensures k.Key? && k.id in persons ==>
      r[k.id] == persons[k.id].(name := f.nome, contact := f.contato, note := f.observacao, situacao := f.situacao)
  {
    if k.Key? && k.id in persons
    then persons[k.id := persons[k.id].(name := f.nome, contact := f.contato, note := f.observacao, situacao := f.situacao)]
    else persons
  }

  /** `UPDATE PROFESSOR SET IDENTIFICADOR = $1 WHERE ID = $2`. */
  function TeachersAfterPut(teachers: map<int, Teacher>, k: Key, f: TeacherForm): (r: map<int, Teacher>)
    ensures r.Keys == teachers.Keys
    ensures forall t :: t in teachers ==> r[t].person == teachers[t].person && r[t].id == teachers[t].id
    ensures forall t :: t in teachers && k != Key(t) ==> r[t] == teachers[t]
    ensures k.Key? && k.id in teachers ==> r[k.id].identificador == f.identificador
  {
    if k.Key? && k.id in teachers then teachers[k.id := teachers[k.id].(identificador := f.identificador)] else teachers
  }

  /** The links after the update: when either key is not a readable integer,
      the loop issues only no-op deletes and the links stay as they were. */
  function LinksAfterPut(links: seq<Link>, kt: Key, kp: Key, ss: seq<SubjectRef>): seq<Link>
  {
    if kt.Key? && kp.Key? then Reconcile(links, kt.id, kp.id, ss) else links
  }

  lemma IssuedStep(ss: seq<SubjectRef>, i: int)
    requires 0 <= i < |ss|
    ensures Issued(ss[..i + 1]) == Issued(ss[..i]) + if Adds(ss[i]) || Drops(ss[i]) then 1 else 0
  {
    assert ss[..i + 1][..i] == ss[..i];
  }

  /** The links after one more element of the loop. */
  lemma LinksAfterPutStep(links: seq<Link>, kt: Key, kp: Key, ss: seq<SubjectRef>, i: int)
    requires 0 <= i < |ss|
    ensures LinksAfterPut(links, kt, kp, ss[..i + 1]) ==
      if kt.Key? && kp.Key? then Step(LinksAfterPut(links, kt, kp, ss[..i]), kt.id, kp.id, ss[i])
      else LinksAfterPut(links, kt, kp, ss[..i])
  {
    assert ss[..i + 1][..i] == ss[..i];
  }

  lemma {:induction false} IssuedPrefix(ss: seq<SubjectRef>, i: int)
    requires 0 <= i <= |ss|
    ensures Issued(ss[..i]) <= Issued(ss)
    decreases |ss| - i
  {
    if i < |ss| {
      IssuedStep(ss, i);
      IssuedPrefix(ss, i + 1);
    } else {
      assert ss[..i] == ss;
    }
  }

  /** The loop of `putProfessor` over `disciplinas`, statements 3 onwards:
      an element flagged 1 inserts its link (raising unless the keys meet the
      foreign keys), one flagged 2 deletes every copy, any other does nothing. */
  method LinkStatements(links: seq<Link>, kt: Key, kp: Key, ss: seq<SubjectRef>, insertable: bool, failAt: Option<nat>)
    returns (ok: bool, cur: seq<Link>)
    requires insertable ==> kt.Key? && kp.Key?
    ensures ok <==> (AnyAdds(ss) ==> insertable) && !(failAt.Some? && 3 <= failAt.value < 3 + Issued(ss))
    ensures ok ==> cur == LinksAfterPut(links, kt, kp, ss)
  {
    cur := links;
    var k := 3;
    var i := 0;
    while i < |ss|
      invariant 0 <= i <= |ss|
      invariant cur == LinksAfterPut(links, kt, kp, ss[..i])
      invariant k == 3 + Issued(ss[..i])
      invariant !(failAt.Some? && 3 <= failAt.value < k)
      invariant forall j :: 0 <= j < i && Adds(ss[j]) ==> insertable
    {
      var s := ss[i];
      IssuedStep(ss, i);
      LinksAfterPutStep(links, kt, kp, ss, i);
      if Adds(s) {
        if Raises(failAt, k) || !insertable {
          IssuedPrefix(ss, i + 1);
          return false, cur;
        }
        cur := cur + [Link(kt.id, kp.id, s.id)];
        k := k + 1;
      } else if Drops(s) {
        if Raises(failAt, k) {
          IssuedPrefix(ss, i + 1);
          return false, cur;
        }
        if kt.Key? && kp.Key? {
          cur := Remove(cur, Link(kt.id, kp.id, s.id));
        }
        k := k + 1;
      }
      i := i + 1;
    }
    assert ss[..i] == ss;
    ok := true;
  }

  class Faculty {
    var persons: map<int, Person>
    var teachers: map<int, Teacher>
    var links: seq<Link>
    var nextPerson: int
    var nextTeacher: int

    predicate Valid()
      reads this
    {
      (forall p :: p in persons ==> persons[p].id == p && p < nextPerson) &&
      (forall t :: t in teachers ==> teachers[t].id == t && t < nextTeacher && teachers[t].person in persons) &&
      LinksInto(links, teachers, persons)
    }

    /** A link insert for these keys meets the foreign keys. */
    predicate Insertable(kt: Key, kp: Key)
      reads this
    {
      kt.Key? && kp.Key? && kt.id in teachers && kp.id in persons
    }

    constructor ()
      ensures Valid() && persons == map[] && teachers == map[] && links == []
    {
      persons, teachers, links := map[], map[], [];
      nextPerson, nextTeacher := 1, 1;
    }

    /** `postProfessor`: destructuring a missing body throws before the try
        (500); the token gate; BEGIN (0); a missing `professor` throws; PESSOA
        with TIPO 1 (1); PROFESSOR (2); a missing `disciplinas` throws; one
        link per element, whatever its flag (3 + i); COMMIT (3 + n). */
    method Post(body: Payload<TeacherForm>, token: Option<string>, verified: Option<Claims>, failAt: Option<nat>)
      returns (code: int, created: Option<TeacherForm>)
      requires Valid()
      modifies this
      ensures Valid()
      ensures body.NoBody? ==> code == SERVER_ERROR
      ensures body.Body? && TokenGate(token, verified).Some? ==> code == UNAUTHORIZED
      ensures code == OK <==> body.Body? && TokenGate(token, verified).None? && body.item.Some? &&
                              body.item.value.disciplinas.Some? &&
                              !(failAt.Some? && failAt.value <= 3 + |body.item.value.disciplinas.value|)
      ensures code == OK ==>
        var f := body.item.value;
        var p := old(nextPerson);
        var t := old(nextTeacher);
        persons == old(persons)[p := Person(p, f.nome, f.contato, f.observacao, 1, None)] &&
        teachers == old(teachers)[t := Teacher(t, f.identificador, p)] &&
        links == old(links) + NewLinks(t, p, f.disciplinas.value) &&
        created == Some(f.(id := Some(Num(t)), pessoaId := Some(Num(p)), situacao := Some(Num(1))))
      ensures code != OK ==> persons == old(persons) && teachers == old(teachers) && links == old(links) && created.None?
    {
      created := None;
      if body.NoBody? {
        return SERVER_ERROR, None;
      }
      var gate := TokenGate(token, verified);
      if gate.Some? {
        return gate.value, None;
      }
      if Raises(failAt, 0) || body.item.None? || Raises(failAt, 1) || Raises(failAt, 2) {
        return SERVER_ERROR, None;
      }
      var f := body.item.value;
      if f.disciplinas.None? {
        return SERVER_ERROR, None;
      }
      var ss := f.disciplinas.value;
      var p, t := nextPerson, nextTeacher;
      var newLinks := links;
      var i := 0;
      while i < |ss|
        invariant 0 <= i <= |ss|
        invariant newLinks == links + NewLinks(t, p, ss[..i])
        invariant !(failAt.Some? && failAt.value < 3 + i)
      {
        if Raises(failAt, 3 + i) {
          return SERVER_ERROR, None;
        }
        assert NewLinks(t, p, ss[..i + 1]) == NewLinks(t, p, ss[..i]) + [Link(t, p, ss[i].id)];
        newLinks := newLinks + [Link(t, p, ss[i].id)];
        i := i + 1;
      }
      assert ss[..i] == ss;
      if Raises(failAt, 3 + |ss|) {
        return SERVER_ERROR, None;
      }
      persons := persons[p := Person(p, f.nome, f.contato, f.observacao, 1, None)];
      teachers := teachers[t := Teacher(t, f.identificador, p)];
      links := newLinks;
      nextPerson, nextTeacher := nextPerson + 1, nextTeacher + 1;
      code := OK;
      created := Some(f.(id := Some(Num(t)), pessoaId := Some(Num(p)), situacao := Some(Num(1))));
    }

    /** `putProfessor`: the gate; BEGIN (0); a missing `professor` throws;
        PESSOA by `pessoa_id` (1); PROFESSOR by `id` (2); one statement per
        element flagged 1 or 2, an insert meeting the foreign keys; filtering
        a missing `disciplinas` throws; COMMIT (3 + Issued). */
    method Put(body: Payload<TeacherForm>, token: Option<string>, verified: Option<Claims>, failAt: Option<nat>)
      returns (code: int, updated: Option<TeacherForm>)
      requires Valid()
      modifies this
      ensures Valid() && nextPerson == old(nextPerson) && nextTeacher == old(nextTeacher)
      ensures body.NoBody? ==> code == SERVER_ERROR
      ensures body.Body? && TokenGate(token, verified).Some? ==> code == UNAUTHORIZED
      ensures code == OK <==>
        body.Body? && TokenGate(token, verified).None? && body.item.Some? &&
        KeyOf(body.item.value.pessoaId) != BadKey && KeyOf(body.item.value.id) != BadKey &&
        body.item.value.disciplinas.Some? &&
        (AnyAdds(body.item.value.disciplinas.value) ==>
           old(Insertable(KeyOf(body.item.value.id), KeyOf(body.item.value.pessoaId)))) &&
        !(failAt.Some? && failAt.value <= 3 + Issued(body.item.value.disciplinas.value))
      ensures code == OK ==>
        var f := body.item.value;
        persons == PersonsAfterPut(old(persons), KeyOf(f.pessoaId), f) &&
        teachers == TeachersAfterPut(old(teachers), KeyOf(f.id), f) &&
        links == LinksAfterPut(old(links), KeyOf(f.id), KeyOf(f.pessoaId), f.disciplinas.value) &&
        updated == Some(f.(disciplinas := Some(Kept(f.disciplinas.value))))
      ensures code != OK ==> persons == old(persons) && teachers == old(teachers) && links == old(links) && updated.None?
    {
      updated := None;
      if body.NoBody? {
        return SERVER_ERROR, None;
      }
      var gate := TokenGate(token, verified);
      if gate.Some? {
        return gate.value, None;
      }
      if Raises(failAt, 0) || body.item.None? {
        return SERVER_ERROR, None;
      }
      var f := body.item.value;
      var kp, kt := KeyOf(f.pessoaId), KeyOf(f.id);
      if Raises(failAt, 1) || kp == BadKey || Raises(failAt, 2) || kt == BadKey {
        return SERVER_ERROR, None;
      }
      var ss := if f.disciplinas.Some? then f.disciplinas.value else [];
      var ok, cur := LinkStatements(links, kt, kp, ss, Insertable(kt, kp), failAt);
      if !ok {
        return SERVER_ERROR, None;
      }
      if f.disciplinas.None? || Raises(failAt, 3 + Issued(ss)) {
        return SERVER_ERROR, None;
      }
      if kt.Key? && kp.Key? {
        ReconcileInto(links, kt.id, kp.id, ss, teachers, persons);
      }
      persons := PersonsAfterPut(persons, kp, f);
      teachers := TeachersAfterPut(teachers, kt, f);
      links := cur;
      code := OK;
      updated := Some(f.(disciplinas := Some(Kept(ss))));
    }

    /** `deleteProfessor`: a falsy `pessoaID` gives 400, then the gate; BEGIN
        (0), the person's links (1), the person's teachers (2), which raises
        while a remaining link names one of them, the person (3), COMMIT (4). */
    method Delete(pessoaID: Option<Value>, token: Option<string>, verified: Option<Claims>, failAt: Option<nat>)
      returns (code: int)
      requires Valid()
      modifies this
      ensures Valid() && nextPerson == old(nextPerson) && nextTeacher == old(nextTeacher)
      ensures pessoaID.None? || !Truthy(pessoaID.value) ==> code == BAD_REQUEST
      ensures pessoaID.Some? && Truthy(pessoaID.value) && TokenGate(token, verified).Some? ==> code == UNAUTHORIZED
      ensures code == OK <==>
        pessoaID.Some? && Truthy(pessoaID.value) && TokenGate(token, verified).None? && KeyOf(pessoaID).Key? &&
        !old(TeacherStillLinked(LinksWithoutPerson(links, KeyOf(pessoaID).id), teachers, KeyOf(pessoaID).id)) &&
        !(failAt.Some? && failAt.value <= 4)
      ensures (pessoaID.Some? && Truthy(pessoaID.value) && TokenGate(token, verified).None? && KeyOf(pessoaID).Key? &&
               old(Consistent(links, teachers)) && !(failAt.Some? && failAt.value <= 4)) ==> code == OK
      ensures code == OK ==>
        var p := KeyOf(pessoaID).id;
        links == LinksWithoutPerson(old(links), p) && teachers == TeachersWithoutPerson(old(teachers), p) &&
        persons == old(persons) - {p}
      ensures code != OK ==> persons == old(persons) && teachers == old(teachers) && links == old(links)
    {
      if pessoaID.None? || !Truthy(pessoaID.value) {
        return BAD_REQUEST;
      }
      var gate := TokenGate(token, verified);
      if gate.Some? {
        return gate.value;
      }
      var k := KeyOf(pessoaID);
      if Raises(failAt, 0) || Raises(failAt, 1) || !k.Key? {
        return SERVER_ERROR;
      }
      var p := k.id;
      var rest := LinksWithoutPerson(links, p);
      if Consistent(links, teachers) {
        ConsistentDeleteOrder(links, teachers, p);
      }
      if Raises(failAt, 2) || TeacherStillLinked(rest, teachers, p) || Raises(failAt, 3) || Raises(failAt, 4) {
        return SERVER_ERROR;
      }
      links := rest;
      teachers := TeachersWithoutPerson(teachers, p);
      persons := persons - {p};
      code := OK;
    }
  }
}
