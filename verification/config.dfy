/** The configuration of a query generator and its validation. */
module Config {
  import opened Wrappers

  /** How the text-generation service is asked to phrase filler text. */
  datatype NoiseMode = Neutral | Supportive | Contradictory

  /**
   * The fields of one query configuration. Subject and relation are kept as
   * their whitespace-separated tokens; the mode and the false target only
   * shape the request sent to the text-generation service.
   */
  datatype QueryConfig = QueryConfig(
    t: int,
    subject: seq<string>,
    relation: seq<string>,
    linkingWord: string,
    noiseToken: string,
    mode: NoiseMode,
    falseTarget: Option<string>)

  /** The noise token used when the configuration names none. */
  const DefaultNoiseToken: string := "n"

  /** The validator on the total length: it accepts exactly the positive lengths, unchanged. */
  function CheckLength(v: int): (r: Result<int>)
    ensures r.Success? <==> v > 0
    ensures r.Success? ==> r.value == v
    ensures r.Failure? ==> r.error == NonPositiveLength
  {
    if v <= 0 then Failure(NonPositiveLength) else Success(v)
  }

  /**
   * Building a configuration runs the length validator; every other field is
   * taken as given. Note that nothing here relates T to the token counts.
   */
  function NewConfig(t: int, subject: seq<string>, relation: seq<string>, linkingWord: string,
                     noiseToken: string, mode: NoiseMode, falseTarget: Option<string>): (r: Result<QueryConfig>)
    ensures r.Success? <==> t > 0
    ensures r.Failure? ==> r.error == NonPositiveLength
    ensures r.Success? ==> && r.value.t == t
                           && r.value.subject == subject
                           && r.value.relation == relation
                           && r.value.linkingWord == linkingWord
                           && r.value.noiseToken == noiseToken
                           && r.value.mode == mode
                           && r.value.falseTarget == falseTarget
  {
    var checked :- CheckLength(t);
    Success(QueryConfig(checked, subject, relation, linkingWord, noiseToken, mode, falseTarget))
  }

  /**
   * Building a configuration from the four required fields only: the noise
   * token defaults to "n", the mode to neutral and the false target to none.
   */
  function NewDefaultConfig(t: int, subject: seq<string>, relation: seq<string>, linkingWord: string): (r: Result<QueryConfig>)
    ensures r.Success? <==> t > 0
    ensures r.Failure? ==> r.error == NonPositiveLength
    ensures r.Success? ==> && r.value.t == t
                           && r.value.subject == subject
                           && r.value.relation == relation
                           && r.value.linkingWord == linkingWord
                           && r.value.noiseToken == "n"
                           && r.value.mode == Neutral
                           && r.value.falseTarget == None
  {
    NewConfig(t, subject, relation, linkingWord, DefaultNoiseToken, Neutral, None)
  }

  /** The number of tokens every query must hold: subject, relation and the linking word. */
  function Required(c: QueryConfig): nat {
    |c.subject| + |c.relation| + 1
  }
}
