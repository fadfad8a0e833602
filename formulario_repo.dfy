/** The file store of questionnaires: one file per form inside its producer's
    directory, plus a per-producer index file listing the form ids in the order
    they were first saved. Files are a map from form id to record, index files
    a map from producer id to id list, and the directory listing a sequence. */
module RepositorioFormulario {
  import opened Common
  import opened Ordenacao
  import opened Status
  import opened Formulario

  /** "form_" + produtorId + "_" + yyyy-MM-dd_HHmmss. */
  function IdBase(pid: int, carimbo: string): string {
    "form_" + IntParaTexto(pid) + "_" + carimbo
  }

  /** baseId + "_" + contador. */
  function IdComSufixo(base: string, k: nat): string {
    base + "_" + NatParaTexto(k)
  }

  lemma SufixoInjetivo(base: string, a: nat, b: nat)
    ensures IdComSufixo(base, a) == IdComSufixo(base, b) ==> a == b
  {
    if IdComSufixo(base, a) == IdComSufixo(base, b) {
      assert NatParaTexto(a) == IdComSufixo(base, a)[|base| + 1..];
      assert NatParaTexto(b) == IdComSufixo(base, b)[|base| + 1..];
      NatParaTextoInjetivo(a, b);
    }
  }

  /** The first n suffixed candidates are n different ids. */
  lemma {:induction false} SufixosDistintos(base: string, n: nat)
    ensures |set j | 1 <= j <= n :: IdComSufixo(base, j)| == n
  {
    if n > 0 {
      SufixosDistintos(base, n - 1);
      var antes := set j | 1 <= j <= n - 1 :: IdComSufixo(base, j);
      assert (set j | 1 <= j <= n :: IdComSufixo(base, j)) == antes + {IdComSufixo(base, n)};
      forall j | 1 <= j <= n - 1 ensures IdComSufixo(base, j) != IdComSufixo(base, n) {
        SufixoInjetivo(base, j, n);
      }
    }
  }

  /** `r` is what gerarNovoId returns for `base` against the ids in `usados`:
      the base itself when free, otherwise base_k for the smallest free k >= 1. */
  ghost predicate IdEscolhido(usados: set<string>, base: string, r: string) {
    r !in usados
    && (base !in usados ==> r == base)
    && (base in usados ==> exists k :: k >= 1 && r == IdComSufixo(base, k)
                                      && forall j :: 1 <= j < k ==> IdComSufixo(base, j) in usados)
  }

  /** Newest first: compareTo on dataPreenchimento, reversed. */
  function ChaveRecente(f: Formulario): Chave {
    Chave(-f.dataPreenchimento.GetOr(0), 0.0)
  }

  /** List.remove(Object): drops the first occurrence only. */
  function RemoverPrimeiro(s: seq<string>, x: string): (r: seq<string>)
    ensures |r| == if x in s then |s| - 1 else |s|
  {
    if s == [] then [] else if s[0] == x then s[1..] else [s[0]] + RemoverPrimeiro(s[1..], x)
  }

  /** In a list without repeats, removing the first occurrence removes the id
      altogether and keeps every other id in its order. */
  lemma {:induction false} RemoverSemRepeticao(s: seq<string>, x: string)
    requires SemRepeticao(s)
    ensures RemoverPrimeiro(s, x) == Filtrar(s, (y: string) => y != x)
    ensures x !in RemoverPrimeiro(s, x) && SemRepeticao(RemoverPrimeiro(s, x))
  {
    if s != [] {
      RemoverSemRepeticao(s[1..], x);
      if s[0] == x {
        FiltrarTodos(s[1..], (y: string) => y != x);
      }
    }
  }

  class RepositorioFormularios {
    var arquivos: map<string, Formulario>
    var indices: map<int, seq<string>>
    var diretorios: seq<int>

    ghost predicate Valid()
      reads this
    {
      (forall k | k in arquivos :: arquivos[k].id == Some(k) && arquivos[k].dataPreenchimento.Some?)
      && (forall k | k in arquivos :: arquivos[k].produtorId in indices && k in indices[arquivos[k].produtorId])
      && (forall p | p in indices :: SemRepeticao(indices[p]))
      && SemRepeticao(diretorios)
      && (forall p :: p in indices <==> p in diretorios)
    }

    constructor ()
      ensures Valid() && arquivos == map[] && indices == map[] && diretorios == []
    {
      arquivos, indices, diretorios := map[], map[], [];
    }

    /** lerIndice: the index of a producer, empty when it has no index file. */
    function Indice(pid: int): seq<string>
      reads this
    {
      if pid in indices then indices[pid] else []
    }

    /** buscarPorId: the form stored under that id, if any. */
    function BuscarPorId(id: string): (r: Option<Formulario>)
      reads this
      ensures r.Some? <==> id in arquivos
      ensures r.Some? ==> r.value == arquivos[id] && (Valid() ==> r.value.id == Some(id))
    {
      if id in arquivos then Some(arquivos[id]) else None
    }

    /** existe. */
    predicate Existe(id: string)
      reads this
    {
      BuscarPorId(id).Some?
    }

    /** gerarNovoId: the unique-suffix loop. */
    method GerarNovoId(pid: int, carimbo: string) returns (r: string)
      ensures IdEscolhido(arquivos.Keys, IdBase(pid, carimbo), r)
    {
      var base := IdBase(pid, carimbo);
      r := base;
      var contador: nat := 1;
      while Existe(r)
        invariant contador >= 1
        invariant contador == 1 ==> r == base
        invariant contador > 1 ==> base in arquivos && r == IdComSufixo(base, contador - 1)
        invariant forall j :: 1 <= j < contador - 1 ==> IdComSufixo(base, j) in arquivos
        decreases |arquivos.Keys| + 1 - contador
      {
        if contador > 1 {
          var tentados := set j | 1 <= j <= contador - 1 :: IdComSufixo(base, j);
          SufixosDistintos(base, contador - 1);
          assert tentados <= arquivos.Keys;
          CardinalidadeSubconjunto(tentados, arquivos.Keys);
        }
        r := IdComSufixo(base, contador);
        contador := contador + 1;
      }
      if contador > 1 {
        assert r == IdComSufixo(base, contador - 1);
      }
    }

    /** salvar: assigns an id and a filling date to a new form, stamps the
        update, writes the file and appends the id to the producer's index
        when it is not there yet. */
    method Salvar(f: FormularioResposta, agora: Relogio)
      requires Valid()
      requires f.formularioId.None? || f.dataPreenchimento.Some?
      modifies this, f
      ensures Valid()
      ensures old(f.formularioId).Some? ==>
                f.Registro() == old(f.Registro()).(dataAtualizacao := Some(agora.instante))
      ensures old(f.formularioId).None? ==>
                f.formularioId.Some?
                && IdEscolhido(old(arquivos).Keys, IdBase(f.produtorId, agora.carimbo), f.formularioId.value)
                && f.Registro() == old(f.Registro()).(id := f.formularioId,
                                                      dataPreenchimento := Some(agora.instante),
                                                      dataAtualizacao := Some(agora.instante))
      ensures f.formularioId.Some? && arquivos == old(arquivos)[f.formularioId.value := f.Registro()]
      ensures var id, pid := f.formularioId.value, f.produtorId;
              && Indice(pid) == (if id in old(Indice(pid)) then old(Indice(pid)) else old(Indice(pid)) + [id])
              && (forall p :: p != pid ==> Indice(p) == old(Indice(p)))
              && diretorios == if pid in old(diretorios) then old(diretorios) else old(diretorios) + [pid]
    {
      if f.formularioId.None? {
        var novo := GerarNovoId(f.produtorId, agora.carimbo);
        f.formularioId := Some(novo);
        f.dataPreenchimento := Some(agora.instante);
      }
      f.dataAtualizacao := Some(agora.instante);
      Gravar(f.Registro());
    }

    /** Writes the file of a record that has an id and a filling date, and
        appends the id to its producer's index when it is not there yet. */
    method Gravar(reg: Formulario)
      requires Valid() && reg.id.Some? && reg.dataPreenchimento.Some?
      modifies this
      ensures Valid()
      ensures arquivos == old(arquivos)[reg.id.value := reg]
      ensures var id, pid := reg.id.value, reg.produtorId;
              && Indice(pid) == (if id in old(Indice(pid)) then old(Indice(pid)) else old(Indice(pid)) + [id])
              && (forall p :: p != pid ==> Indice(p) == old(Indice(p)))
              && diretorios == if pid in old(diretorios) then old(diretorios) else old(diretorios) + [pid]
    {
      var id, pid := reg.id.value, reg.produtorId;
      arquivos := arquivos[id := reg];
      var indice := Indice(pid);
      if id !in indice {
        indices := indices[pid := indice + [id]];
        if pid !in diretorios {
          diretorios := diretorios + [pid];
        }
      }
    }

    /** atualizar: the same as salvar. */
    method Atualizar(f: FormularioResposta, agora: Relogio)
      requires Valid()
      requires f.formularioId.None? || f.dataPreenchimento.Some?
      modifies this, f
      ensures Valid()
      ensures old(f.formularioId).Some? ==>
                f.Registro() == old(f.Registro()).(dataAtualizacao := Some(agora.instante))
      ensures old(f.formularioId).None? ==>
                f.formularioId.Some?
                && IdEscolhido(old(arquivos).Keys, IdBase(f.produtorId, agora.carimbo), f.formularioId.value)
                && f.Registro() == old(f.Registro()).(id := f.formularioId,
                                                      dataPreenchimento := Some(agora.instante),
                                                      dataAtualizacao := Some(agora.instante))
      ensures f.formularioId.Some? && arquivos == old(arquivos)[f.formularioId.value := f.Registro()]
      ensures var id, pid := f.formularioId.value, f.produtorId;
              && Indice(pid) == (if id in old(Indice(pid)) then old(Indice(pid)) else old(Indice(pid)) + [id])
              && (forall p :: p != pid ==> Indice(p) == old(Indice(p)))
              && diretorios == if pid in old(diretorios) then old(diretorios) else old(diretorios) + [pid]
    {
      Salvar(f, agora);
    }

    /** The file of `id` exists in the directory of `pid`. */
    predicate ArquivoExiste(pid: int, id: string)
      reads this
    {
      id in arquivos && arquivos[id].produtorId == pid
    }

    /** The indexed forms of a producer whose file exists, in index order. */
    function Presentes(pid: int, ids: seq<string>): (r: seq<Formulario>)
      reads this
      ensures forall f :: f in r <==> exists id :: id in ids && ArquivoExiste(pid, id) && f == arquivos[id]
    {
      if ids == [] then []
      else
        var ultimo := ids[|ids| - 1];
        Presentes(pid, ids[..|ids| - 1]) + (if ArquivoExiste(pid, ultimo) then [arquivos[ultimo]] else [])
    }

    /** What buscarPorProdutor returns. */
    function DoProdutor(pid: int): seq<Formulario>
      reads this
    {
      Ordenar(Presentes(pid, Indice(pid)), ChaveRecente)
    }

    /** buscarPorProdutor: reads the indexed files that exist, then sorts
        newest first. */
    method BuscarPorProdutor(pid: int) returns (r: seq<Formulario>)
      ensures r == DoProdutor(pid)
      ensures Ordenada(r, ChaveRecente)
      ensures forall f :: f in r <==> exists id :: id in Indice(pid) && ArquivoExiste(pid, id) && f == arquivos[id]
    {
      var indice := Indice(pid);
      var lidos: seq<Formulario> := [];
      var i := 0;
      while i < |indice|
        invariant 0 <= i <= |indice|
        invariant lidos == Presentes(pid, indice[..i])
      {
        assert indice[..i + 1][..i] == indice[..i];
        if ArquivoExiste(pid, indice[i]) {
          lidos := lidos + [arquivos[indice[i]]];
        }
        i := i + 1;
      }
      assert indice[..i] == indice;
      r := Ordenar(lidos, ChaveRecente);
      OrdenarOrdena(lidos, ChaveRecente);
      OrdenarMembros(lidos, ChaveRecente);
    }

    /** The forms of the given producers with the given status, producer by producer. */
    function ComStatus(ps: seq<int>, st: StatusFormulario): (r: seq<Formulario>)
      reads this
      ensures forall f :: f in r ==> f.status == st
    {
      if ps == [] then []
      else ComStatus(ps[..|ps| - 1], st) + Filtrar(DoProdutor(ps[|ps| - 1]), (f: Formulario) => f.status == st)
    }

    /** buscarPorStatus: parses the status (IllegalArgumentException on an
        unknown value), then walks every producer directory. */
    method BuscarPorStatus(status: string) returns (r: Result<seq<Formulario>>)
      ensures FromString(status).Err? ==> r == Err(ArgumentoInvalido)
      ensures FromString(status).Ok? ==> r == Ok(ComStatus(diretorios, FromString(status).value))
      ensures r.Ok? ==> forall f :: f in r.value ==> Valor(f.status) == status
    {
      var st := FromString(status);
      if st.Err? {
        return Err(ArgumentoInvalido);
      }
      var resultado: seq<Formulario> := [];
      var i := 0;
      while i < |diretorios|
        invariant 0 <= i <= |diretorios|
        invariant resultado == ComStatus(diretorios[..i], st.value)
      {
        assert diretorios[..i + 1][..i] == diretorios[..i];
        var doProdutor := BuscarPorProdutor(diretorios[i]);
        var filtrados := SoComStatus(doProdutor, st.value);
        resultado := resultado + filtrados;
        i := i + 1;
      }
      assert diretorios[..i] == diretorios;
      r := Ok(resultado);
    }

    /** The filtering loop of buscarPorStatus over one producer's forms. */
    method SoComStatus(formularios: seq<Formulario>, st: StatusFormulario) returns (r: seq<Formulario>)
      ensures r == Filtrar(formularios, (f: Formulario) => f.status == st)
    {
      r := [];
      var j := 0;
      while j < |formularios|
        invariant 0 <= j <= |formularios|
        invariant r == Filtrar(formularios[..j], (f: Formulario) => f.status == st)
      {
        FiltrarPrefixo(formularios, j, (f: Formulario) => f.status == st);
        if formularios[j].status == st {
          r := r + [formularios[j]];
        }
        j := j + 1;
      }
      assert formularios[..j] == formularios;
    }

    /** excluir: false for an unknown id; otherwise deletes the file and drops
        the id from its producer's index. */
    method Excluir(id: string) returns (removido: bool)
      requires Valid()
      modifies this
      ensures Valid()
      ensures removido <==> id in old(arquivos)
      ensures !removido ==> arquivos == old(arquivos) && indices == old(indices) && diretorios == old(diretorios)
      ensures removido ==>
                var pid := old(arquivos)[id].produtorId;
                && arquivos == old(arquivos) - {id}
                && indices == old(indices)[pid := RemoverPrimeiro(old(Indice(pid)), id)]
                && diretorios == old(diretorios)
                && id !in Indice(pid)
                && Indice(pid) == Filtrar(old(Indice(pid)), (y: string) => y != id)
    {
      var encontrado := BuscarPorId(id);
      if encontrado.None? {
        return false;
      }
      var pid := encontrado.value.produtorId;
      arquivos := arquivos - {id};
      var indice := Indice(pid);
      RemoverSemRepeticao(indice, id);
      indices := indices[pid := RemoverPrimeiro(indice, id)];
      forall k | k in arquivos
        ensures arquivos[k].produtorId in indices && k in indices[arquivos[k].produtorId]
      {
        if arquivos[k].produtorId == pid {
          RemoverMantem(indice, id, k);
        }
      }
      removido := true;
    }
  }

  lemma CardinalidadeSubconjunto<T>(a: set<T>, b: set<T>)
    requires a <= b
    ensures |a| <= |b|
  {
    assert b == a + (b - a);
  }

  lemma {:induction false} RemoverMantem(s: seq<string>, x: string, y: string)
    requires y != x && y in s
    ensures y in RemoverPrimeiro(s, x)
  {
    if s[0] != x && s[0] != y {
      RemoverMantem(s[1..], x, y);
    }
  }
}
