/** Staff accounts as the authentication controllers see them: FUNCIONARIO
    rows (ID, PESSOA_ID, USUARIO, EMAIL, SENHA) joined to PESSOA rows (ID,
    NOME, CONTATO, TIPO, SITUACAO) on FUNCIONARIO.PESSOA_ID = PESSOA.ID.
    Password hashing and comparison are foreign calls: their outcomes are
    parameters. */
module Accounts {
  import opened Common
  import opened Images

  datatype Account = Account(id: int, personId: int, usuario: Option<Value>, email: Option<string>, senha: string)

  datatype Person = Person(id: int, nome: Option<Value>, contato: Option<Value>, tipo: int, situacao: int)

  /** The `conta` object of an account update. */
  datatype AccountForm = AccountForm(funcionarioid: Option<Value>, pessoaid: Option<Value>, username: Option<Value>,
                                     email: Option<string>, nome: Option<Value>, contato: Option<Value>,
                                     senhaAtual: Option<Value>, novaSenha: Option<Value>)

  /** Whether the update changes the password: `conta.novaSenha` is truthy. */
  predicate Changing(f: AccountForm) { f.novaSenha.Some? && Truthy(f.novaSenha.value) }

  /** The rows the login query can return: this e-mail, an active person. */
  function LoginCandidates(staff: map<int, Account>, persons: map<int, Person>, email: Option<string>): (r: set<int>)
    ensures forall a :: a in r <==> a in staff && email.Some? && staff[a].email == email &&
                                    staff[a].personId in persons && persons[staff[a].personId].situacao == 1
  {
    set a | a in staff && email.Some? && staff[a].email == email &&
            staff[a].personId in persons && persons[staff[a].personId].situacao == 1
  }

  /** `WHERE ID = $4 AND PESSOA_ID = $5`: the row the account update names. */
  predicate Names(a: Account, kf: Key, kp: Key) { kf == Key(a.id) && kp == Key(a.personId) }

  /** `USUARIO = COALESCE($1, USUARIO), SENHA = COALESCE($2, SENHA), EMAIL = COALESCE($3, EMAIL)`. */
  function AccountsAfterPut(staff: map<int, Account>, f: AccountForm, hash: Option<string>): (r: map<int, Account>)
    ensures r.Keys == staff.Keys
  {
    map a | a in staff ::
      if Names(staff[a], KeyOf(f.funcionarioid), KeyOf(f.pessoaid))
      then staff[a].(usuario := Coalesce(f.username, staff[a].usuario),
                     senha := Coalesce(hash, Some(staff[a].senha)).value,
                     email := Coalesce(f.email, staff[a].email))
      else staff[a]
  }

  /** `NOME = COALESCE($1, NOME), CONTATO = COALESCE($2, CONTATO) WHERE ID = $3 AND TIPO = 2`. */
  function PersonsAfterPut(persons: map<int, Person>, f: AccountForm): (r: map<int, Person>)
    ensures r.Keys == persons.Keys
  {
    map p | p in persons ::
      if KeyOf(f.pessoaid) == Key(p) && persons[p].tipo == 2
      then persons[p].(nome := Coalesce(f.nome, persons[p].nome), contato := Coalesce(f.contato, persons[p].contato))
      else persons[p]
  }

  /** The update keeps every field sent as null, and touches only the named rows. */
  lemma PutKeepsNulls(staff: map<int, Account>, persons: map<int, Person>, f: AccountForm, hash: Option<string>)
    ensures forall a :: a in staff && !Names(staff[a], KeyOf(f.funcionarioid), KeyOf(f.pessoaid)) ==>
      AccountsAfterPut(staff, f, hash)[a] == staff[a]
    ensures forall a :: a in staff && f.username.None? ==> AccountsAfterPut(staff, f, hash)[a].usuario == staff[a].usuario
    ensures forall a :: a in staff && f.email.None? ==> AccountsAfterPut(staff, f, hash)[a].email == staff[a].email
    ensures forall a :: a in staff && hash.None? ==> AccountsAfterPut(staff, f, hash)[a].senha == staff[a].senha
    ensures forall a :: a in staff ==> AccountsAfterPut(staff, f, hash)[a].id == staff[a].id &&
                                       AccountsAfterPut(staff, f, hash)[a].personId == staff[a].personId
    ensures forall p :: p in persons && f.nome.None? ==> PersonsAfterPut(persons, f)[p].nome == persons[p].nome
    ensures forall p :: p in persons && f.contato.None? ==> PersonsAfterPut(persons, f)[p].contato == persons[p].contato
    ensures forall p :: p in persons && KeyOf(f.pessoaid) != Key(p) ==> PersonsAfterPut(persons, f)[p] == persons[p]
  {
  }

  /** `UPDATE FUNCIONARIO SET SENHA = $1 WHERE EMAIL = $2`. */
  function ResetByEmail(staff: map<int, Account>, email: Option<string>, hash: string): (r: map<int, Account>)
    ensures r.Keys == staff.Keys
  {
    map a | a in staff :: if email.Some? && staff[a].email == email then staff[a].(senha := hash) else staff[a]
  }

  /** Only the password of the rows with that e-mail changes. */
  lemma ResetOnlyThatEmail(staff: map<int, Account>, email: Option<string>, hash: string)
    ensures forall a :: a in staff ==>
      ResetByEmail(staff, email, hash)[a] == (if email.Some? && staff[a].email == email then staff[a].(senha := hash) else staff[a])
    ensures forall a :: a in staff && ResetByEmail(staff, email, hash)[a] != staff[a] ==>
      staff[a].email == email && ResetByEmail(staff, email, hash)[a] == staff[a].(senha := hash)
  {
  }

  class AccountTable {
    var staff: map<int, Account>
    var persons: map<int, Person>

    predicate Valid()
      reads this
    {
      forall a :: a in staff ==> staff[a].id == a
    }

    constructor ()
      ensures Valid() && staff == map[] && persons == map[]
    {
      staff, persons := map[], map[];
    }

    /** `authLogin`: the query (a failure gives 400) returns one row of an
        active person with that e-mail, in an order the query leaves open;
        none gives 401; the `situacao === 0` test cannot fire on such a row;
        a password that does not match the row's hash gives 401; otherwise 200
        and a token for the row's id. `matching` holds the accounts whose hash
        the password matches. */
    method Login(email: Option<string>, matching: set<int>, dbFails: bool) returns (code: int, user: Option<int>)
      requires Valid()
      ensures dbFails ==> code == BAD_REQUEST && user.None?
      ensures !dbFails && LoginCandidates(staff, persons, email) == {} ==> code == UNAUTHORIZED
      ensures !dbFails && LoginCandidates(staff, persons, email) * matching == {} ==> code == UNAUTHORIZED
      ensures !dbFails && LoginCandidates(staff, persons, email) != {} && LoginCandidates(staff, persons, email) <= matching ==>
        code == OK
      ensures code == OK <==> user.Some?
      ensures user.Some? ==> user.value in LoginCandidates(staff, persons, email) && user.value in matching
      ensures code == OK || code == UNAUTHORIZED || code == BAD_REQUEST
    {
      if dbFails {
        return BAD_REQUEST, None;
      }
      var rows := LoginCandidates(staff, persons, email);
      if !exists r :: r in rows {
        assert rows == {};
        return UNAUTHORIZED, None;
      }
      // LIMIT 1 without ORDER BY: some one of the matching rows comes back.
      var a :| a in rows;
      assert a in rows * matching <==> a in matching;
      if persons[staff[a].personId].situacao == 0 {
        assert false;
        return UNAUTHORIZED, None;
      }
      if a !in matching {
        return UNAUTHORIZED, None;
      }
      code, user := OK, Some(a);
    }

    /** `putConta`: a missing `conta` throws (400). When `novaSenha` is truthy,
        statement 0 reads the named row's hash: no row, or a current password
        that does not match (`currentOk`), gives 401 and no change. Then the
        new hash (`hash`; None when hashing threw), BEGIN, the FUNCIONARIO
        update, the PESSOA update, COMMIT; the catch rolls back and gives 400.
        The reply echoes `conta`. */
    method Put(conta: Option<AccountForm>, currentOk: bool, hash: Option<string>, failAt: Option<nat>)
      returns (code: int, reply: Option<AccountForm>)
      requires Valid()
      modifies this
      ensures Valid()
      ensures conta.None? ==> code == BAD_REQUEST
      ensures code == OK ==> conta.Some? && reply == conta
      ensures code == OK <==>
        conta.Some? && KeyOf(conta.value.funcionarioid) != BadKey && KeyOf(conta.value.pessoaid) != BadKey &&
        (Changing(conta.value) ==>
           (exists a :: a in old(staff) && Names(old(staff)[a], KeyOf(conta.value.funcionarioid), KeyOf(conta.value.pessoaid))) &&
           currentOk && hash.Some?) &&
        !(failAt.Some? && failAt.value <= if Changing(conta.value) then 4 else 3)
      ensures code == OK || code == UNAUTHORIZED || code == BAD_REQUEST
      ensures (conta.Some? && conta.value.novaSenha.Some? && Truthy(conta.value.novaSenha.value) &&
               !Raises(failAt, 0) && KeyOf(conta.value.funcionarioid) != BadKey && KeyOf(conta.value.pessoaid) != BadKey &&
               (!(exists a :: a in old(staff) && Names(old(staff)[a], KeyOf(conta.value.funcionarioid), KeyOf(conta.value.pessoaid))) ||
                !currentOk)) ==> code == UNAUTHORIZED
      ensures code == OK ==>
        var f := conta.value;
        var changing := f.novaSenha.Some? && Truthy(f.novaSenha.value);
        hash.Some? || !changing
      ensures code == OK ==>
        var f := conta.value;
        var changing := f.novaSenha.Some? && Truthy(f.novaSenha.value);
        staff == AccountsAfterPut(old(staff), f, if changing then hash else None) &&
        persons == PersonsAfterPut(old(persons), f)
      ensures code != OK ==> staff == old(staff) && persons == old(persons) && reply.None?
      ensures forall a :: a in staff && a in old(staff) && staff[a].senha != old(staff)[a].senha ==>
        code == OK && conta.value.novaSenha.Some? && Truthy(conta.value.novaSenha.value) && currentOk
    {
      reply := None;
      if conta.None? {
        return BAD_REQUEST, None;
      }
      var f := conta.value;
      var kf, kp := KeyOf(f.funcionarioid), KeyOf(f.pessoaid);
      var changing := f.novaSenha.Some? && Truthy(f.novaSenha.value);
      var b := 0;
      if changing {
        if Raises(failAt, 0) || kf == BadKey || kp == BadKey {
          return BAD_REQUEST, None;
        }
        if !(exists a :: a in staff && Names(staff[a], kf, kp)) || !currentOk {
          return UNAUTHORIZED, None;
        }
        if hash.None? {
          return BAD_REQUEST, None;
        }
        b := 1;
      }
      if Raises(failAt, b) || Raises(failAt, b + 1) || kf == BadKey || kp == BadKey || Raises(failAt, b + 2) || Raises(failAt, b + 3) {
        return BAD_REQUEST, None;
      }
      var h := if changing then hash else None;
      staff := AccountsAfterPut(staff, f, h);
      persons := PersonsAfterPut(persons, f);
      code, reply := OK, conta;
    }

    /** `resetPassword`: no code or token is consulted. The hash (None when
        hashing threw), BEGIN (0), the update by e-mail (1), COMMIT (2); any
        failure gives 400 and the uncommitted update is discarded. */
    method ResetPassword(email: Option<string>, hash: Option<string>, failAt: Option<nat>) returns (code: int)
      requires Valid()
      modifies this
      ensures Valid() && persons == old(persons)
      ensures code == OK <==> hash.Some? && !(failAt.Some? && failAt.value <= 2)
      ensures code == OK ==> staff == ResetByEmail(old(staff), email, hash.value)
      ensures code != OK ==> code == BAD_REQUEST && staff == old(staff)
    {
      if hash.None? || Raises(failAt, 0) || Raises(failAt, 1) || Raises(failAt, 2) {
        return BAD_REQUEST;
      }
      staff := ResetByEmail(staff, email, hash.value);
      code := OK;
    }
  }
}
