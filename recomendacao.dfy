/** The vet recommendation ranker. For each vet it computes a simulated
    distance, a compatibility score, a motive and a list of specialties, then
    keeps the vets inside a radius, sorts them by compatibility (descending)
    and distance (ascending) with Java's stable sort, and cuts the list.
    Math.random() is a parameter: `sorteio(v)` is the draw made for vet `v`. */
module Recomendacao {
  import opened Common
  import opened Ordenacao
  import opened Analise
  import opened Formulario
  import opened RepositorioFormulario
  import opened Usuarios

  const RAIO_MAXIMO_KM: real := 100.0
  const LIMITE_PADRAO: int := 5
  const LIMITE_POR_PROBLEMAS: nat := 3
  const MINIMO_POR_PROBLEMAS: int := 50

  const PROXIMIDADE := "Proximidade geográfica"
  const ESPECIALISTA := "Especialista em avicultura"
  const URGENCIA := "Urgência da situação"
  const MOTIVO_PADRAO := "Profissional qualificado"
  const ESPECIALIDADE_PADRAO := "Medicina Veterinária Geral"

  /** VeterinarioRecomendadoDTO, the fields the ranking reads or sets; the
      boxed Integer/Double/Boolean fields start out null (None). */
  datatype VeterinarioRecomendado = VeterinarioRecomendado(
    veterinarioId: Option<int>,
    nome: string,
    email: string,
    crmv: Option<string>,
    bio: Option<string>,
    cidade: Option<string>,
    uf: Option<string>,
    especialidades: seq<string>,
    distanciaKm: Option<real>,
    compatibilidade: Option<int>,
    motivo: Option<string>,
    disponivel: Option<bool>)

  // ---------------------------------------------------------------------------
  // The vet's bio

  function Bio(vet: Usuario): Option<string> {
    if vet.perfil.Veterinario? then vet.perfil.bio else None
  }

  /** The vet's bio in lower case, or the empty string when there is none. */
  function BioMinuscula(vet: Usuario): string {
    if Bio(vet).Some? then Lower(Bio(vet).value) else ""
  }

  /** The avian-experience test shared by both scores. */
  predicate Avicola(bio: string) {
    Contem(bio, "avicultura") || Contem(bio, "aves")
  }

  // ---------------------------------------------------------------------------
  // The latest analysis

  function Data(f: Formulario): int {
    f.dataPreenchimento.GetOr(0)
  }

  /** filter(resultado != null).max(comparing(dataPreenchimento)). Stream.max
      reduces with BinaryOperator.maxBy, which keeps the earlier of two
      elements that compare equal; the status is not looked at. */
  function UltimaAnalise(fs: seq<Formulario>): (r: Option<Formulario>)
    ensures r.None? <==> forall f :: f in fs ==> f.resultado.None?
    ensures r.Some? ==> r.value.resultado.Some?
    ensures r.Some? ==> forall f :: f in fs && f.resultado.Some? ==> Data(f) <= Data(r.value)
    ensures r.Some? ==> exists i :: 0 <= i < |fs| && fs[i] == r.value &&
                          forall j :: 0 <= j < i && fs[j].resultado.Some? ==> Data(fs[j]) < Data(r.value)
    decreases |fs|
  {
    if fs == [] then None
    else
      var ini := fs[..|fs| - 1];
      var x := fs[|fs| - 1];
      assert fs == ini + [x];
      var m := UltimaAnalise(ini);
      if x.resultado.None? then m
      else if m.Some? && Data(m.value) >= Data(x) then m
      else Some(x)
  }

  // ---------------------------------------------------------------------------
  // Distance

  /** calcularDistanciaSimulada with Math.random() given as `sorteio`:
      0-15 km in the same city, 20-80 km otherwise, 50 km when either address
      is missing. A vet whose address has no city makes `equals` throw. */
  function Distancia(vet: Usuario, produtor: Usuario, sorteio: real): (r: Result<real>)
    ensures r.Err? <==> vet.endereco.Some? && produtor.endereco.Some? && vet.endereco.value.cidade.None?
    ensures r.Err? ==> r.erro == PonteiroNulo
  {
    if vet.endereco.Some? && produtor.endereco.Some? then
      match vet.endereco.value.cidade
      case None => Err(PonteiroNulo)
      case Some(c) =>
        if Some(c) == produtor.endereco.value.cidade then Ok(sorteio * 15.0) else Ok(20.0 + sorteio * 60.0)
    else Ok(50.0)
  }

  predicate MesmaCidade(vet: Usuario, produtor: Usuario) {
    vet.endereco.Some? && produtor.endereco.Some? && vet.endereco.value.cidade.Some? &&
    vet.endereco.value.cidade == produtor.endereco.value.cidade
  }

  /** With a draw in [0, 1) the distance lies in [0, 80); it is under 15 km
      exactly for a vet in the producer's city and at least 20 km for a vet
      in another known city. */
  lemma DistanciaFaixas(vet: Usuario, produtor: Usuario, sorteio: real)
    requires 0.0 <= sorteio < 1.0
    requires Distancia(vet, produtor, sorteio).Ok?
    ensures 0.0 <= Distancia(vet, produtor, sorteio).value < 80.0
    ensures Distancia(vet, produtor, sorteio).value < 15.0 <==> MesmaCidade(vet, produtor)
    ensures vet.endereco.Some? && produtor.endereco.Some? && !MesmaCidade(vet, produtor) ==>
              Distancia(vet, produtor, sorteio).value >= 20.0
  {
    if vet.endereco.Some? && produtor.endereco.Some? {
      ProdutoMenorQue(sorteio, 15.0);
      ProdutoMenorQue(sorteio, 60.0);
    }
  }

  lemma ProdutoMenorQue(x: real, k: real)
    requires 0.0 <= x < 1.0 && k > 0.0
    ensures 0.0 <= x * k < k
  {
  }

  // ---------------------------------------------------------------------------
  // Compatibility

  /** A comment that mentions "crítico" in any case. */
  predicate ComentarioCritico(c: string) {
    Contem(Lower(c), "crítico")
  }

  /** The latest analysis has a comment flagged as critical. */
  predicate Critica(analise: Option<Formulario>) {
    analise.Some? && analise.value.resultado.Some? &&
    exists c :: c in analise.value.resultado.value.comentarios && ComentarioCritico(c)
  }

  /** The latest analysis scored below 50. */
  predicate Urgente(analise: Option<Formulario>) {
    analise.Some? && analise.value.resultado.Some? && analise.value.resultado.value.score < 50
  }

  /** calcularPontuacaoCompatibilidade: 60, +20 for an avian bio, +10 for a
      critical comment, +5 for a score below 50, clamped to [0, 100]. The
      bonuses never reach the clamp. */
  function Compatibilidade(vet: Usuario, analise: Option<Formulario>): (r: int)
    ensures 60 <= r <= 95
    ensures r == 60 + (if Avicola(BioMinuscula(vet)) then 20 else 0)
                    + (if Critica(analise) then 10 else 0)
                    + (if Urgente(analise) then 5 else 0)
  {
    var base := 60 + (if Avicola(BioMinuscula(vet)) then 20 else 0);
    var pontuacao :=
      if analise.Some? && analise.value.resultado.Some? then
        var resultado := analise.value.resultado.value;
        base + (if exists c :: c in resultado.comentarios && ComentarioCritico(c) then 10 else 0)
             + (if resultado.score < 50 then 5 else 0)
      else base;
    Min(100, Max(0, pontuacao))
  }

  /** Only an avian bio reaches 80: the analysis bonuses add at most 15. */
  lemma AvicolaAcimaDe80(vet: Usuario, analise: Option<Formulario>)
    ensures Compatibilidade(vet, analise) >= 80 <==> Avicola(BioMinuscula(vet))
  {
  }

  // ---------------------------------------------------------------------------
  // The problem score

  /** How many problem entries, repeats included, occur in the bio. */
  function Acertos(bio: string, problemas: seq<string>): (k: nat)
    ensures k <= |problemas|
  {
    if problemas == [] then 0
    else Acertos(bio, problemas[..|problemas| - 1]) + (if Contem(bio, Lower(problemas[|problemas| - 1])) then 1 else 0)
  }

  lemma {:induction false} AcertosConcatena(bio: string, a: seq<string>, b: seq<string>)
    ensures Acertos(bio, a + b) == Acertos(bio, a) + Acertos(bio, b)
    decreases |b|
  {
    if b == [] {
      assert a + b == a;
    } else {
      var ini := b[..|b| - 1];
      AcertosConcatena(bio, a, ini);
      assert (a + b)[..|a + b| - 1] == a + ini;
    }
  }

  /** min(100, 40 + 15 k + 20·[avian bio]). */
  function PontuacaoEspecializacao(vet: Usuario, problemas: seq<string>): (r: int)
    ensures 40 <= r <= 100
    ensures r > MINIMO_POR_PROBLEMAS <==> Acertos(BioMinuscula(vet), problemas) >= 1 || Avicola(BioMinuscula(vet))
  {
    Min(100, 40 + 15 * Acertos(BioMinuscula(vet), problemas) + (if Avicola(BioMinuscula(vet)) then 20 else 0))
  }

  /** Listing the same problem twice counts it twice: the score grows by 15
      per matching entry until it reaches the cap. */
  lemma RepetidoContaDuasVezes(vet: Usuario, problemas: seq<string>, p: string)
    requires Contem(BioMinuscula(vet), Lower(p))
    ensures PontuacaoEspecializacao(vet, problemas + [p, p]) ==
            Min(100, PontuacaoEspecializacao(vet, problemas) + 30)
  {
    var bio := BioMinuscula(vet);
    AcertosConcatena(bio, problemas, [p, p]);
    assert [p, p][..1] == [p];
    assert Acertos(bio, [p]) == 1 by {
      assert [p][..0] == [];
    }
  }

  /** calcularPontuacaoPorEspecializacao: the for loop over the problems. */
  method CalcularPontuacaoPorEspecializacao(vet: Usuario, problemas: seq<string>) returns (r: int)
    ensures r == PontuacaoEspecializacao(vet, problemas)
  {
    var pontuacao := 40;
    var bio := BioMinuscula(vet);
    for i := 0 to |problemas|
      invariant pontuacao == 40 + 15 * Acertos(bio, problemas[..i])
    {
      assert problemas[..i + 1][..i] == problemas[..i];
      if Contem(bio, Lower(problemas[i])) {
        pontuacao := pontuacao + 15;
      }
    }
    assert problemas[..|problemas|] == problemas;
    if Avicola(bio) {
      pontuacao := pontuacao + 20;
    }
    r := Min(100, pontuacao);
  }

  // ---------------------------------------------------------------------------
  // The motive

  /** The reasons, in the order the code considers them: proximity, then
      specialist, then urgency, each at most once. */
  function Motivos(vet: Usuario, analise: Option<Formulario>, distancia: real): (r: seq<string>)
    ensures |r| <= 3
    ensures PROXIMIDADE in r <==> distancia <= 20.0
    ensures ESPECIALISTA in r <==> Contem(BioMinuscula(vet), "avicultura")
    ensures URGENCIA in r <==> Urgente(analise)
    ensures r == Filtrar([PROXIMIDADE, ESPECIALISTA, URGENCIA], (m: string) => m in r)
  {
    var r := (if distancia <= 20.0 then [PROXIMIDADE] else [])
             + (if Contem(BioMinuscula(vet), "avicultura") then [ESPECIALISTA] else [])
             + (if Urgente(analise) then [URGENCIA] else []);
    assert PROXIMIDADE[0] == 'P' && ESPECIALISTA[0] == 'E' && URGENCIA[0] == 'U';
    var f := (m: string) => m in r;
    assert f(PROXIMIDADE) <==> distancia <= 20.0;
    assert f(ESPECIALISTA) <==> Contem(BioMinuscula(vet), "avicultura");
    assert f(URGENCIA) <==> Urgente(analise);
    assert [URGENCIA][1..] == [];
    assert Filtrar([URGENCIA], f) == (if f(URGENCIA) then [URGENCIA] else []);
    assert [ESPECIALISTA, URGENCIA][1..] == [URGENCIA];
    assert Filtrar([ESPECIALISTA, URGENCIA], f) == (if f(ESPECIALISTA) then [ESPECIALISTA] else []) + Filtrar([URGENCIA], f);
    assert [PROXIMIDADE, ESPECIALISTA, URGENCIA][1..] == [ESPECIALISTA, URGENCIA];
    assert Filtrar([PROXIMIDADE, ESPECIALISTA, URGENCIA], f)
        == (if f(PROXIMIDADE) then [PROXIMIDADE] else []) + Filtrar([ESPECIALISTA, URGENCIA], f);
    r
  }

  /** gerarMotivoRecomendacao: the reasons joined with ", ", or the default
      motive when there is none. Every reason can be read in the motive. */
  function MotivoDe(vet: Usuario, analise: Option<Formulario>, distancia: real): (r: string)
    ensures Motivos(vet, analise, distancia) == [] ==> r == MOTIVO_PADRAO
    ensures forall i :: 0 <= i < |Motivos(vet, analise, distancia)| ==> Contem(r, Motivos(vet, analise, distancia)[i])
    ensures Motivos(vet, analise, distancia) != [] ==> r == Juntar(Motivos(vet, analise, distancia), ", ")
  {
    var motivos := Motivos(vet, analise, distancia);
    if motivos == [] then MOTIVO_PADRAO
    else
      assert forall i :: 0 <= i < |motivos| ==> Contem(Juntar(motivos, ", "), motivos[i]) by {
        forall i | 0 <= i < |motivos| {
          JuntarContem(motivos, ", ", i);
        }
      }
      Juntar(motivos, ", ")
  }

  method GerarMotivoRecomendacao(vet: Usuario, analise: Option<Formulario>, distancia: real) returns (r: string)
    ensures r == MotivoDe(vet, analise, distancia)
  {
    var motivos: seq<string> := [];
    if distancia <= 20.0 {
      motivos := motivos + [PROXIMIDADE];
    }
    var bio := BioMinuscula(vet);
    if Contem(bio, "avicultura") {
      motivos := motivos + [ESPECIALISTA];
    }
    if analise.Some? && analise.value.resultado.Some? && analise.value.resultado.value.score < 50 {
      motivos := motivos + [URGENCIA];
    }
    assert motivos == Motivos(vet, analise, distancia);
    r := if motivos == [] then MOTIVO_PADRAO else Juntar(motivos, ", ");
  }

  /** The urgency motive and the urgency bonus go together: it is given
      exactly when the compatibility is odd. */
  lemma UrgenciaSeCompatibilidadeImpar(vet: Usuario, analise: Option<Formulario>, distancia: real)
    ensures URGENCIA in Motivos(vet, analise, distancia) <==> Compatibilidade(vet, analise) % 2 == 1
  {
    var par := 60 + (if Avicola(BioMinuscula(vet)) then 20 else 0) + (if Critica(analise) then 10 else 0);
    assert par % 2 == 0;
    assert Compatibilidade(vet, analise) == par + (if Urgente(analise) then 5 else 0);
    assert URGENCIA in Motivos(vet, analise, distancia) <==> Urgente(analise);
  }

  /** A vet named an avicultura specialist also has the avian bonus. */
  lemma EspecialistaTemBonus(vet: Usuario, analise: Option<Formulario>, distancia: real)
    requires ESPECIALISTA in Motivos(vet, analise, distancia)
    ensures Compatibilidade(vet, analise) >= 80
  {
  }

  /** A vet in the producer's city is always given the proximity motive. */
  lemma MesmaCidadeProxima(vet: Usuario, produtor: Usuario, analise: Option<Formulario>, sorteio: real)
    requires 0.0 <= sorteio < 1.0
    requires MesmaCidade(vet, produtor)
    ensures Distancia(vet, produtor, sorteio).Ok?
    ensures PROXIMIDADE in Motivos(vet, analise, Distancia(vet, produtor, sorteio).value)
  {
    DistanciaFaixas(vet, produtor, sorteio);
  }

  // ---------------------------------------------------------------------------
  // Specialties

  /** The labels of the keywords found in a lower-case bio, in the fixed order
      avicultura, aves, nutrição, reprodução, clínica. */
  function Encontradas(bio: string): seq<string> {
    (if Contem(bio, "avicultura") then ["Avicultura"] else [])
    + (if Contem(bio, "aves") then ["Medicina de Aves"] else [])
    + (if Contem(bio, "nutrição") then ["Nutrição Animal"] else [])
    + (if Contem(bio, "reprodução") then ["Reprodução Animal"] else [])
    + (if Contem(bio, "clínica") then ["Clínica Geral"] else [])
  }

  /** extrairEspecialidades: never empty; the general label stands alone and
      exactly when the bio is null or names none of the keywords. */
  function EspecialidadesDe(bio: Option<string>): seq<string> {
    var encontradas := if bio.Some? then Encontradas(Lower(bio.value)) else [];
    if encontradas == [] then [ESPECIALIDADE_PADRAO] else encontradas
  }

  /** At most one label per keyword, never the general label, and the two
      avian labels exactly when their keywords occur. */
  lemma EncontradasRotulos(bio: string)
    ensures |Encontradas(bio)| <= 5
    ensures ESPECIALIDADE_PADRAO !in Encontradas(bio)
    ensures "Avicultura" in Encontradas(bio) <==> Contem(bio, "avicultura")
    ensures "Medicina de Aves" in Encontradas(bio) <==> Contem(bio, "aves")
  {
  }

  /** extrairEspecialidades never answers an empty list; the general label
      stands alone exactly when the bio is null or names none of the
      keywords, and otherwise every label found is listed. */
  lemma EspecialidadesDePropriedades(bio: Option<string>)
    ensures EspecialidadesDe(bio) != []
    ensures EspecialidadesDe(bio) == [ESPECIALIDADE_PADRAO] <==> bio.None? || Encontradas(Lower(bio.value)) == []
    ensures bio.Some? ==> EspecialidadesDe(bio) == Encontradas(Lower(bio.value)) || Encontradas(Lower(bio.value)) == []
  {
    if bio.Some? {
      EncontradasRotulos(Lower(bio.value));
    }
  }

  method ExtrairEspecialidades(bio: Option<string>) returns (r: seq<string>)
    ensures r == EspecialidadesDe(bio)
  {
    r := [];
    if bio.Some? {
      var bioLower := Lower(bio.value);
      ghost var e := Encontradas(bioLower);
      ghost var ate := [];
      if Contem(bioLower, "avicultura") { r := r + ["Avicultura"]; }
      ate := ate + (if Contem(bioLower, "avicultura") then ["Avicultura"] else []);
      assert r == ate;
      if Contem(bioLower, "aves") { r := r + ["Medicina de Aves"]; }
      ate := ate + (if Contem(bioLower, "aves") then ["Medicina de Aves"] else []);
      assert r == ate;
      if Contem(bioLower, "nutrição") { r := r + ["Nutrição Animal"]; }
      ate := ate + (if Contem(bioLower, "nutrição") then ["Nutrição Animal"] else []);
      assert r == ate;
      if Contem(bioLower, "reprodução") { r := r + ["Reprodução Animal"]; }
      ate := ate + (if Contem(bioLower, "reprodução") then ["Reprodução Animal"] else []);
      assert r == ate;
      if Contem(bioLower, "clínica") { r := r + ["Clínica Geral"]; }
      ate := ate + (if Contem(bioLower, "clínica") then ["Clínica Geral"] else []);
      assert r == ate;
    }
    if r == [] {
      r := r + [ESPECIALIDADE_PADRAO];
    }
  }

  /** A vet with the avian bonus is listed with an avian specialty. */
  lemma AvicolaTemEspecialidade(vet: Usuario)
    requires Avicola(BioMinuscula(vet))
    ensures "Avicultura" in EspecialidadesDe(Bio(vet)) || "Medicina de Aves" in EspecialidadesDe(Bio(vet))
  {
    EncontradasRotulos(Lower(Bio(vet).value));
  }

  // ---------------------------------------------------------------------------
  // The recommendation record

  /** mapearVeterinarioParaDTO: copies the vet's data; the distance, the
      compatibility, the motive and the availability stay null. */
  function ParaDTO(vet: Usuario): (r: VeterinarioRecomendado)
    ensures r.veterinarioId == vet.id && r.bio == Bio(vet)
    ensures r.especialidades == EspecialidadesDe(Bio(vet)) && r.especialidades != []
    ensures r.distanciaKm.None? && r.compatibilidade.None? && r.motivo.None? && r.disponivel.None?
  {
    VeterinarioRecomendado(
      vet.id, vet.nome, vet.email,
      if vet.perfil.Veterinario? then vet.perfil.crm else None,
      Bio(vet),
      if vet.endereco.Some? then vet.endereco.value.cidade else None,
      if vet.endereco.Some? then vet.endereco.value.estado else None,
      EspecialidadesDe(Bio(vet)),
      None, None, None, None)
  }

  method MapearVeterinarioParaDTO(vet: Usuario) returns (dto: VeterinarioRecomendado)
    ensures dto == ParaDTO(vet)
  {
    dto := VeterinarioRecomendado(vet.id, vet.nome, vet.email, None, Bio(vet), None, None, [], None, None, None, None);
    if vet.perfil.Veterinario? {
      dto := dto.(crmv := vet.perfil.crm);
    }
    if vet.endereco.Some? {
      dto := dto.(cidade := vet.endereco.value.cidade, uf := vet.endereco.value.estado);
    }
    var especialidades := ExtrairEspecialidades(Bio(vet));
    dto := dto.(especialidades := especialidades);
  }

  /** calcularRecomendacao. */
  function Recomendacao(vet: Usuario, produtor: Usuario, analise: Option<Formulario>, sorteio: real)
    : (r: Result<VeterinarioRecomendado>)
    ensures r.Err? <==> Distancia(vet, produtor, sorteio).Err?
    ensures r.Err? ==> r.erro == PonteiroNulo
    ensures r.Ok? ==> r.value.veterinarioId == vet.id
    ensures r.Ok? ==> r.value.distanciaKm == Some(Distancia(vet, produtor, sorteio).value)
    ensures r.Ok? ==> r.value.compatibilidade == Some(Compatibilidade(vet, analise))
    ensures r.Ok? ==> r.value.motivo == Some(MotivoDe(vet, analise, r.value.distanciaKm.value))
  {
    match Distancia(vet, produtor, sorteio)
    case Err(e) => Err(e)
    case Ok(d) =>
      Ok(ParaDTO(vet).(distanciaKm := Some(d), compatibilidade := Some(Compatibilidade(vet, analise)),
                       motivo := Some(MotivoDe(vet, analise, d)), disponivel := Some(true)))
  }

  method CalcularRecomendacao(vet: Usuario, produtor: Usuario, analise: Option<Formulario>, sorteio: real)
    returns (r: Result<VeterinarioRecomendado>)
    ensures r == Recomendacao(vet, produtor, analise, sorteio)
  {
    var dto := MapearVeterinarioParaDTO(vet);
    var distancia := Distancia(vet, produtor, sorteio);
    if distancia.Err? {
      return Err(distancia.erro);
    }
    dto := dto.(distanciaKm := Some(distancia.value));
    dto := dto.(compatibilidade := Some(Compatibilidade(vet, analise)));
    var motivo := GerarMotivoRecomendacao(vet, analise, distancia.value);
    dto := dto.(motivo := Some(motivo));
    dto := dto.(disponivel := Some(true));
    r := Ok(dto);
  }

  /** calcularRecomendacaoPorProblemas. */
  function RecomendacaoPorProblemas(vet: Usuario, produtor: Usuario, problemas: seq<string>, sorteio: real)
    : (r: Result<VeterinarioRecomendado>)
    ensures r.Err? <==> Distancia(vet, produtor, sorteio).Err?
    ensures r.Err? ==> r.erro == PonteiroNulo
    ensures r.Ok? ==> r.value.veterinarioId == vet.id
    ensures r.Ok? ==> r.value.compatibilidade == Some(PontuacaoEspecializacao(vet, problemas))
    ensures r.Ok? ==> r.value.motivo == Some("Especialização em: " + Juntar(problemas, ", "))
  {
    match Distancia(vet, produtor, sorteio)
    case Err(e) => Err(e)
    case Ok(d) =>
      Ok(ParaDTO(vet).(distanciaKm := Some(d), compatibilidade := Some(PontuacaoEspecializacao(vet, problemas)),
                       motivo := Some("Especialização em: " + Juntar(problemas, ", ")), disponivel := Some(true)))
  }

  method CalcularRecomendacaoPorProblemas(vet: Usuario, produtor: Usuario, problemas: seq<string>, sorteio: real)
    returns (r: Result<VeterinarioRecomendado>)
    ensures r == RecomendacaoPorProblemas(vet, produtor, problemas, sorteio)
  {
    var dto := MapearVeterinarioParaDTO(vet);
    var distancia := Distancia(vet, produtor, sorteio);
    if distancia.Err? {
      return Err(distancia.erro);
    }
    dto := dto.(distanciaKm := Some(distancia.value));
    var pontuacao := CalcularPontuacaoPorEspecializacao(vet, problemas);
    dto := dto.(compatibilidade := Some(pontuacao));
    dto := dto.(motivo := Some("Especialização em: " + Juntar(problemas, ", ")));
    dto := dto.(disponivel := Some(true));
    r := Ok(dto);
  }

  // ---------------------------------------------------------------------------
  // The ranking

  /** Stream.map with a mapping that may throw: the first exception ends the
      pipeline. */
  function MapearOuFalhar<A, B>(xs: seq<A>, f: A -> Result<B>): (r: Result<seq<B>>)
    ensures r.Err? <==> exists i :: 0 <= i < |xs| && f(xs[i]).Err?
    ensures r.Err? ==> exists i :: 0 <= i < |xs| && f(xs[i]) == Err(r.erro)
    ensures r.Ok? ==> |r.value| == |xs| && forall i :: 0 <= i < |xs| ==> r.value[i] == f(xs[i]).value
  {
    if xs == [] then Ok([])
    else
      match f(xs[0])
      case Err(e) => Err(e)
      case Ok(y) =>
        match MapearOuFalhar(xs[1..], f)
        case Err(e) =>
          assert exists i :: 0 <= i < |xs[1..]| && f(xs[1..][i]) == Err(e);
          Err(e)
        case Ok(ys) => Ok([y] + ys)
  }

  /** comparing(compatibilidade, reverseOrder()).thenComparing(distanciaKm). */
  function ChaveRanking(r: VeterinarioRecomendado): Chave {
    Chave(-r.compatibilidade.GetOr(0), r.distanciaKm.GetOr(0.0))
  }

  /** filter(manter).sorted(ranking).limit(limite). */
  function Ranquear(candidatos: seq<VeterinarioRecomendado>, manter: VeterinarioRecomendado -> bool, limite: nat)
    : seq<VeterinarioRecomendado>
  {
    Limitar(Ordenar(Filtrar(candidatos, manter), ChaveRanking), limite)
  }

  /** The ranking keeps at most `limite` candidates that pass the filter,
      ordered by compatibility descending and then distance ascending; every
      candidate it cuts is ranked no better than every one it keeps; and
      candidates with equal keys keep their input order. */
  lemma RanquearPropriedades(candidatos: seq<VeterinarioRecomendado>, manter: VeterinarioRecomendado -> bool,
                             limite: nat)
    ensures |Ranquear(candidatos, manter, limite)| <= limite
    ensures var n := |Filtrar(candidatos, manter)|;
            |Ranquear(candidatos, manter, limite)| == if n < limite then n else limite
    ensures forall x :: x in Ranquear(candidatos, manter, limite) ==> x in candidatos && manter(x)
    ensures forall i, j :: 0 <= i < j < |Ranquear(candidatos, manter, limite)| ==>
              var a, b := Ranquear(candidatos, manter, limite)[i], Ranquear(candidatos, manter, limite)[j];
              a.compatibilidade.GetOr(0) > b.compatibilidade.GetOr(0) ||
              (a.compatibilidade.GetOr(0) == b.compatibilidade.GetOr(0) && a.distanciaKm.GetOr(0.0) <= b.distanciaKm.GetOr(0.0))
    ensures forall x, y :: (x in Filtrar(candidatos, manter) && x !in Ranquear(candidatos, manter, limite) &&
                            y in Ranquear(candidatos, manter, limite)) ==> !Menor(ChaveRanking(x), ChaveRanking(y))
    ensures forall c :: ComChave(Ordenar(Filtrar(candidatos, manter), ChaveRanking), ChaveRanking, c) ==
                        ComChave(Filtrar(candidatos, manter), ChaveRanking, c)
  {
    var mantidos := Filtrar(candidatos, manter);
    var ordenados := Ordenar(mantidos, ChaveRanking);
    var r := Ranquear(candidatos, manter, limite);
    OrdenarTamanho(mantidos, ChaveRanking);
    OrdenarOrdena(mantidos, ChaveRanking);
    OrdenarMembros(mantidos, ChaveRanking);
    assert forall i :: 0 <= i < |r| ==> r[i] == ordenados[i];
    forall x, y | x in mantidos && x !in r && y in r
      ensures !Menor(ChaveRanking(x), ChaveRanking(y))
    {
      var k :| 0 <= k < |ordenados| && ordenados[k] == x;
      var i :| 0 <= i < |r| && r[i] == y;
      assert k >= |r|;
    }
    forall c ensures ComChave(ordenados, ChaveRanking, c) == ComChave(mantidos, ChaveRanking, c) {
      OrdenarEstavel(mantidos, ChaveRanking, c);
    }
  }

  /** Every vet mapped to its recommendation for the producer. */
  function Candidatos(vets: seq<Usuario>, produtor: Usuario, analise: Option<Formulario>, sorteio: Usuario -> real)
    : Result<seq<VeterinarioRecomendado>>
  {
    MapearOuFalhar(vets, v => Recomendacao(v, produtor, analise, sorteio(v)))
  }

  /** Every vet mapped to its recommendation for the producer's problems. */
  function CandidatosPorProblemas(vets: seq<Usuario>, produtor: Usuario, problemas: seq<string>,
                                  sorteio: Usuario -> real): Result<seq<VeterinarioRecomendado>>
  {
    MapearOuFalhar(vets, v => RecomendacaoPorProblemas(v, produtor, problemas, sorteio(v)))
  }

  function DentroDoRaio(raio: real): VeterinarioRecomendado -> bool {
    (c: VeterinarioRecomendado) => c.distanciaKm.Some? && c.distanciaKm.value <= raio
  }

  function AcimaDoMinimo(c: VeterinarioRecomendado): bool {
    c.compatibilidade.GetOr(0) > MINIMO_POR_PROBLEMAS
  }

  // ---------------------------------------------------------------------------
  // Search by specialty

  /** The specialty filter: the lower-case bio contains the lower-case query,
      "avicultura" or "aves". */
  predicate DaEspecialidade(vet: Usuario, especialidade: string) {
    Contem(BioMinuscula(vet), Lower(especialidade)) || Avicola(BioMinuscula(vet))
  }

  /** The location filter: no address means no match; a missing city, or a
      missing state once the city matched, makes equalsIgnoreCase throw. */
  function NaRegiao(vet: Usuario, cidade: string, uf: string): (r: Result<bool>)
    ensures r == Ok(true) <==> vet.endereco.Some? && vet.endereco.value.cidade.Some? &&
                               vet.endereco.value.estado.Some? &&
                               EqualsIgnoreCase(vet.endereco.value.cidade.value, cidade) &&
                               EqualsIgnoreCase(vet.endereco.value.estado.value, uf)
    ensures r.Err? <==> vet.endereco.Some? &&
                        (vet.endereco.value.cidade.None? ||
                         (EqualsIgnoreCase(vet.endereco.value.cidade.value, cidade) &&
                          vet.endereco.value.estado.None?))
    ensures r.Err? ==> r.erro == PonteiroNulo
  {
    if vet.endereco.None? then Ok(false)
    else
      match vet.endereco.value.cidade
      case None => Err(PonteiroNulo)
      case Some(c) =>
        if !EqualsIgnoreCase(c, cidade) then Ok(false)
        else
          match vet.endereco.value.estado
          case None => Err(PonteiroNulo)
          case Some(e) => Ok(EqualsIgnoreCase(e, uf))
  }

  predicate Selecionado(vet: Usuario, especialidade: string, cidade: string, uf: string) {
    DaEspecialidade(vet, especialidade) && NaRegiao(vet, cidade, uf) == Ok(true)
  }

  /** The two filters over the vet table, in stored order; the location
      filter only sees the vets of the specialty. */
  function Selecionar(vets: seq<Usuario>, especialidade: string, cidade: string, uf: string)
    : (r: Result<seq<Usuario>>)
    ensures r.Err? <==> exists i :: 0 <= i < |vets| && DaEspecialidade(vets[i], especialidade) &&
                                   NaRegiao(vets[i], cidade, uf).Err?
    ensures r.Ok? ==> r.value == Filtrar(vets, v => Selecionado(v, especialidade, cidade, uf))
  {
    if vets == [] then Ok([])
    else
      var resto := Selecionar(vets[1..], especialidade, cidade, uf);
      if !DaEspecialidade(vets[0], especialidade) then
        (if resto.Err? then
           assert exists i :: 0 <= i < |vets[1..]| && DaEspecialidade(vets[1..][i], especialidade) &&
                              NaRegiao(vets[1..][i], cidade, uf).Err?;
           resto
         else resto)
      else
        match NaRegiao(vets[0], cidade, uf)
        case Err(e) => Err(e)
        case Ok(b) =>
          match resto
          case Err(e) =>
            assert exists i :: 0 <= i < |vets[1..]| && DaEspecialidade(vets[1..][i], especialidade) &&
                               NaRegiao(vets[1..][i], cidade, uf).Err?;
            Err(e)
          case Ok(s) => Ok((if b then [vets[0]] else []) + s)
  }

  function ParaDTOs(vets: seq<Usuario>): (r: seq<VeterinarioRecomendado>)
    ensures |r| == |vets| && forall i :: 0 <= i < |vets| ==> r[i] == ParaDTO(vets[i])
  {
    seq(|vets|, i requires 0 <= i < |vets| => ParaDTO(vets[i]))
  }

  /** comparing(compatibilidade, reverseOrder()) with the null key treated as
      equal to itself. */
  function ChaveCompatibilidade(r: VeterinarioRecomendado): Chave {
    Chave(if r.compatibilidade.Some? then -r.compatibilidade.value else 0, 0.0)
  }

  /** buscarPorEspecialidade as written: the records built by
      mapearVeterinarioParaDTO carry a null compatibility, and
      Comparator.reverseOrder() dereferences it as soon as the sort compares
      two records. */
  function BuscarPorEspecialidadeComoEscrito(vets: seq<Usuario>, especialidade: string, cidade: string, uf: string)
    : (r: Result<seq<VeterinarioRecomendado>>)
    ensures r.Ok? ==> |r.value| <= 1
  {
    match Selecionar(vets, especialidade, cidade, uf)
    case Err(e) => Err(e)
    case Ok(s) => if |s| >= 2 then Err(PonteiroNulo) else Ok(ParaDTOs(s))
  }

  /** The search as intended: the matching vets sorted by a compatibility
      that is the same (unset) for all of them, so the stable sort keeps the
      stored order. */
  function BuscarPorEspecialidade(vets: seq<Usuario>, especialidade: string, cidade: string, uf: string)
    : (r: Result<seq<VeterinarioRecomendado>>)
    ensures r.Err? <==> Selecionar(vets, especialidade, cidade, uf).Err?
    ensures r.Ok? ==> r.value == ParaDTOs(Selecionar(vets, especialidade, cidade, uf).value)
  {
    match Selecionar(vets, especialidade, cidade, uf)
    case Err(e) => Err(e)
    case Ok(s) =>
      OrdenarChavesIguais(ParaDTOs(s), ChaveCompatibilidade, Chave(0, 0.0));
      Ok(Ordenar(ParaDTOs(s), ChaveCompatibilidade))
  }

  /** Two or more matching vets make the search as written fail, where the
      intended search lists them all. */
  lemma EspecialidadeComoEscritoFalha(vets: seq<Usuario>, especialidade: string, cidade: string, uf: string)
    requires Selecionar(vets, especialidade, cidade, uf).Ok?
    requires |Selecionar(vets, especialidade, cidade, uf).value| >= 2
    ensures BuscarPorEspecialidadeComoEscrito(vets, especialidade, cidade, uf) == Err(PonteiroNulo)
    ensures BuscarPorEspecialidade(vets, especialidade, cidade, uf).Ok?
    ensures |BuscarPorEspecialidade(vets, especialidade, cidade, uf).value| >= 2
  {
  }

  /** A stable sort of elements that all share one key changes nothing. */
  lemma OrdenarChavesIguais<T>(xs: seq<T>, k: T -> Chave, c: Chave)
    requires forall i :: 0 <= i < |xs| ==> k(xs[i]) == c
    ensures Ordenar(xs, k) == xs
  {
    OrdenarEstavel(xs, k, c);
    OrdenarMembros(xs, k);
    ComChaveTodos(xs, k, c);
    ComChaveTodos(Ordenar(xs, k), k, c);
  }

  lemma {:induction false} ComChaveTodos<T>(xs: seq<T>, k: T -> Chave, c: Chave)
    requires forall x :: x in xs ==> k(x) == c
    ensures ComChave(xs, k, c) == xs
  {
    if xs != [] {
      ComChaveTodos(xs[1..], k, c);
    }
  }

  // ---------------------------------------------------------------------------
  // The service

  class ServicoRecomendacao {
    const produtores: RepositorioUsuarios
    const veterinarios: RepositorioUsuarios
    const formularios: RepositorioFormularios

    constructor (produtores: RepositorioUsuarios, veterinarios: RepositorioUsuarios,
                 formularios: RepositorioFormularios)
      ensures this.produtores == produtores && this.veterinarios == veterinarios
      ensures this.formularios == formularios
    {
      this.produtores := produtores;
      this.veterinarios := veterinarios;
      this.formularios := formularios;
    }

    /** What recomendarVeterinarios(produtorId, raioKm, limite) returns. */
    function Recomendados(produtorId: int, raioKm: real, limite: int, sorteio: Usuario -> real)
      : Result<seq<VeterinarioRecomendado>>
      reads produtores, veterinarios, formularios
    {
      match produtores.BuscarPorId(produtorId)
      case None => Err(NaoEncontrado)
      case Some(produtor) =>
        if limite < 0 then Err(ArgumentoInvalido)
        else
          var analise := UltimaAnalise(formularios.DoProdutor(produtorId));
          match Candidatos(veterinarios.usuarios, produtor, analise, sorteio)
          case Err(e) => Err(e)
          case Ok(candidatos) => Ok(Ranquear(candidatos, DentroDoRaio(raioKm), limite))
    }

    /** recomendarVeterinarios: an unknown producer and a negative limit are
        rejected; otherwise at most `limite` vets within the radius, best
        compatibility first and nearest first among equals. */
    method RecomendarVeterinarios(produtorId: int, raioKm: real, limite: int, sorteio: Usuario -> real)
      returns (r: Result<seq<VeterinarioRecomendado>>)
      ensures r == Recomendados(produtorId, raioKm, limite, sorteio)
    {
      var produtor := produtores.BuscarPorId(produtorId);
      if produtor.None? {
        return Err(NaoEncontrado);
      }
      var fs := formularios.BuscarPorProdutor(produtorId);
      var analise := UltimaAnalise(fs);
      if limite < 0 {
        return Err(ArgumentoInvalido);
      }
      var p := produtor.value;
      var candidatos := Candidatos(veterinarios.usuarios, p, analise, sorteio);
      if candidatos.Err? {
        return Err(candidatos.erro);
      }
      r := Ok(Ranquear(candidatos.value, DentroDoRaio(raioKm), limite));
    }

    /** recomendarVeterinarios(produtorId): radius 100 km, five vets. */
    method RecomendarVeterinariosPadrao(produtorId: int, sorteio: Usuario -> real)
      returns (r: Result<seq<VeterinarioRecomendado>>)
      ensures r == Recomendados(produtorId, RAIO_MAXIMO_KM, LIMITE_PADRAO, sorteio)
    {
      r := RecomendarVeterinarios(produtorId, RAIO_MAXIMO_KM, LIMITE_PADRAO, sorteio);
    }

    /** What recomendarPorProblemas(produtorId, problemas) returns. */
    function PorProblemas(produtorId: int, problemas: seq<string>, sorteio: Usuario -> real)
      : Result<seq<VeterinarioRecomendado>>
      reads produtores, veterinarios
    {
      match produtores.BuscarPorId(produtorId)
      case None => Err(NaoEncontrado)
      case Some(produtor) =>
        match CandidatosPorProblemas(veterinarios.usuarios, produtor, problemas, sorteio)
        case Err(e) => Err(e)
        case Ok(candidatos) => Ok(Ranquear(candidatos, AcimaDoMinimo, LIMITE_POR_PROBLEMAS))
    }

    /** recomendarPorProblemas: at most three vets scoring above 50, in the
        ranking order. */
    method RecomendarPorProblemas(produtorId: int, problemas: seq<string>, sorteio: Usuario -> real)
      returns (r: Result<seq<VeterinarioRecomendado>>)
      ensures r == PorProblemas(produtorId, problemas, sorteio)
    {
      var produtor := produtores.BuscarPorId(produtorId);
      if produtor.None? {
        return Err(NaoEncontrado);
      }
      var p := produtor.value;
      var candidatos := CandidatosPorProblemas(veterinarios.usuarios, p, problemas, sorteio);
      if candidatos.Err? {
        return Err(candidatos.erro);
      }
      r := Ok(Ranquear(candidatos.value, AcimaDoMinimo, LIMITE_POR_PROBLEMAS));
    }

    /** recomendarVeterinarios rejects an unknown producer and then a negative
        limit; otherwise it returns at most `limite` vets within the radius,
        best compatibility first and nearest first among equals. */
    lemma RecomendadosPropriedades(produtorId: int, raioKm: real, limite: int, sorteio: Usuario -> real)
      ensures Recomendados(produtorId, raioKm, limite, sorteio) == Err(NaoEncontrado) <==>
              produtores.BuscarPorId(produtorId).None?
      ensures Recomendados(produtorId, raioKm, limite, sorteio) == Err(ArgumentoInvalido) <==>
              produtores.BuscarPorId(produtorId).Some? && limite < 0
      ensures Recomendados(produtorId, raioKm, limite, sorteio).Ok? ==>
                var r := Recomendados(produtorId, raioKm, limite, sorteio).value;
                |r| <= limite && Ordenada(r, ChaveRanking) &&
                forall x :: x in r ==> x.distanciaKm.Some? && x.distanciaKm.value <= raioKm
      ensures Recomendados(produtorId, raioKm, limite, sorteio).Ok? ==>
                var c := Candidatos(veterinarios.usuarios, produtores.BuscarPorId(produtorId).value,
                                    UltimaAnalise(formularios.DoProdutor(produtorId)), sorteio);
                var n := |Filtrar(c.value, DentroDoRaio(raioKm))|;
                c.Ok? && |Recomendados(produtorId, raioKm, limite, sorteio).value| == if n < limite then n else limite
    {
      var produtor := produtores.BuscarPorId(produtorId);
      if produtor.Some? && limite >= 0 {
        var analise := UltimaAnalise(formularios.DoProdutor(produtorId));
        var p := produtor.value;
        var candidatos := Candidatos(veterinarios.usuarios, p, analise, sorteio);
        if candidatos.Ok? {
          RanquearPropriedades(candidatos.value, DentroDoRaio(raioKm), limite);
          RanquearOrdenada(candidatos.value, DentroDoRaio(raioKm), limite);
        }
      }
    }

    /** recomendarPorProblemas rejects an unknown producer; otherwise at most
        three vets scoring above 50, in the ranking order. */
    lemma PorProblemasPropriedades(produtorId: int, problemas: seq<string>, sorteio: Usuario -> real)
      ensures PorProblemas(produtorId, problemas, sorteio) == Err(NaoEncontrado) <==>
              produtores.BuscarPorId(produtorId).None?
      ensures PorProblemas(produtorId, problemas, sorteio).Ok? ==>
                var r := PorProblemas(produtorId, problemas, sorteio).value;
                |r| <= 3 && Ordenada(r, ChaveRanking) &&
                forall x :: x in r ==> x.compatibilidade.GetOr(0) > 50
      ensures PorProblemas(produtorId, problemas, sorteio).Ok? ==>
                var c := CandidatosPorProblemas(veterinarios.usuarios, produtores.BuscarPorId(produtorId).value,
                                                problemas, sorteio);
                var n := |Filtrar(c.value, AcimaDoMinimo)|;
                c.Ok? && |PorProblemas(produtorId, problemas, sorteio).value| == if n < 3 then n else 3
    {
      var produtor := produtores.BuscarPorId(produtorId);
      if produtor.Some? {
        var p := produtor.value;
        var candidatos := CandidatosPorProblemas(veterinarios.usuarios, p, problemas, sorteio);
        if candidatos.Ok? {
          RanquearPropriedades(candidatos.value, AcimaDoMinimo, LIMITE_POR_PROBLEMAS);
          RanquearOrdenada(candidatos.value, AcimaDoMinimo, LIMITE_POR_PROBLEMAS);
        }
      }
    }

    /** buscarPorEspecialidade over the vet table, in its intended form. */
    method BuscarPorEspecialidadeNaRegiao(especialidade: string, cidade: string, uf: string)
      returns (r: Result<seq<VeterinarioRecomendado>>)
      ensures r == BuscarPorEspecialidade(veterinarios.usuarios, especialidade, cidade, uf)
      ensures r.Ok? ==> forall i :: 0 <= i < |r.value| ==>
                exists v :: v in veterinarios.usuarios && Selecionado(v, especialidade, cidade, uf) &&
                            r.value[i] == ParaDTO(v)
    {
      r := BuscarPorEspecialidade(veterinarios.usuarios, especialidade, cidade, uf);
      if r.Ok? {
        var s := Selecionar(veterinarios.usuarios, especialidade, cidade, uf).value;
        forall i | 0 <= i < |r.value|
          ensures exists v :: v in veterinarios.usuarios && Selecionado(v, especialidade, cidade, uf) &&
                              r.value[i] == ParaDTO(v)
        {
          assert s[i] in s;
        }
      }
    }
  }

  lemma RanquearOrdenada(candidatos: seq<VeterinarioRecomendado>, manter: VeterinarioRecomendado -> bool,
                         limite: nat)
    ensures Ordenada(Ranquear(candidatos, manter, limite), ChaveRanking)
  {
    var ordenados := Ordenar(Filtrar(candidatos, manter), ChaveRanking);
    OrdenarOrdena(Filtrar(candidatos, manter), ChaveRanking);
    assert forall i :: 0 <= i < |Ranquear(candidatos, manter, limite)| ==>
             Ranquear(candidatos, manter, limite)[i] == ordenados[i];
  }

  /** A vet passes the problem search's threshold exactly when one of the
      problems occurs in its bio or its bio is avian. */
  lemma PorProblemasMantem(vet: Usuario, produtor: Usuario, problemas: seq<string>, sorteio: real)
    requires RecomendacaoPorProblemas(vet, produtor, problemas, sorteio).Ok?
    ensures AcimaDoMinimo(RecomendacaoPorProblemas(vet, produtor, problemas, sorteio).value) <==>
            Acertos(BioMinuscula(vet), problemas) >= 1 || Avicola(BioMinuscula(vet))
  {
  }
}
