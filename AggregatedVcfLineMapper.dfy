/**
 * `AggregatedVcfLineMapper`: maps one line of an aggregated VCF file to the
 * variants it describes, by delegating to the parsing factory that the
 * source's aggregation kind selects once, at construction.
 */
module AggregatedVcfMapping {
  import opened Wrappers

  /** How sample data is summarised in the VCF file. */
  datatype Aggregation = NONE | BASIC | EVS | EXAC

  /** The VCF file being read: its identifiers and its aggregation kind. */
  datatype VariantSource = VariantSource(fileId: string, studyId: string, aggregation: Aggregation)

  /** The external library's parsing factories for aggregated files. */
  datatype Factory = VariantVcfEVSFactory | VariantVcfExacFactory | VariantAggregatedVcfFactory

  /**
   * The variants `factory.create(source, line)` returns. The parsing lives in
   * the external library, so the result is kept as an uninterpreted term that
   * records which factory produced it from which source and line.
   */
  datatype Variants = Created(factory: Factory, source: VariantSource, line: string)

  /** The errors the mapper raises. */
  datatype MapperError =
    | IllegalArgument  // construction for a non-aggregated source
    | AssertionFailed  // `mapLine` on a mapper without a factory

  /** The aggregation kind a factory is meant for. */
  function AggregationOf(f: Factory): (a: Aggregation)
    ensures a != NONE
  {
    match f
    case VariantVcfEVSFactory => EVS
    case VariantVcfExacFactory => EXAC
    case VariantAggregatedVcfFactory => BASIC
  }

  /**
   * The constructor's switch: the factory for an aggregation kind, and none
   * for `NONE`. Each aggregated kind gets the factory meant for it, and
   * every factory is chosen for exactly one kind.
   */
  function FactoryFor(a: Aggregation): (f: Option<Factory>)
    ensures f.None? <==> a == NONE
    ensures f.Some? ==> AggregationOf(f.value) == a
    ensures forall g :: AggregationOf(g) == a ==> f == Some(g)
  {
    match a
    case EVS => Some(VariantVcfEVSFactory)
    case EXAC => Some(VariantVcfExacFactory)
    case BASIC => Some(VariantAggregatedVcfFactory)
    case NONE => None
  }

  class AggregatedVcfLineMapper {
    /** The source the mapper was built for; final. */
    const source: VariantSource

    /** The factory chosen at construction; `None` stands for Java's null. */
    var factory: Option<Factory>

    /** The mapper holds the factory its source's aggregation kind selects. */
    ghost predicate Valid()
      reads this
      ensures Valid() ==> (factory.None? <==> source.aggregation == NONE)
      ensures Valid() && factory.Some? ==> AggregationOf(factory.value) == source.aggregation
    {
      factory == FactoryFor(source.aggregation)
    }

    /**
     * The constructor's field assignments. For `NONE` it leaves the factory
     * null; `New` then refuses to hand out such a mapper.
     */
    constructor (source: VariantSource)
      ensures this.source == source
      ensures Valid()
    {
      this.source := source;
      match source.aggregation {
        case EVS => factory := Some(VariantVcfEVSFactory);
        case EXAC => factory := Some(VariantVcfExacFactory);
        case BASIC => factory := Some(VariantAggregatedVcfFactory);
        case NONE => factory := None;
      }
    }

    /**
     * `mapLine`: asserts that there is a factory, then returns what it
     * creates from the source and the line; the line number is not used and
     * the mapper is not changed.
     */
    method MapLine(line: string, lineNumber: int) returns (r: Result<Variants, MapperError>)
      requires Valid()
      ensures r.Failure? <==> source.aggregation == NONE
      ensures r.Failure? ==> r.error == AssertionFailed
      ensures r.Success? ==>
        && r.value.source == source && r.value.line == line
        && AggregationOf(r.value.factory) == source.aggregation
    {
      if factory.None? {
        return Failure(AssertionFailed);
      }
      r := Success(Created(factory.value, source, line));
    }
  }

  /**
   * `new AggregatedVcfLineMapper(source)` as the caller sees it: an
   * `IllegalArgumentException` for a non-aggregated source, otherwise a new
   * mapper for `source` holding the factory its aggregation kind selects.
   */
  method New(source: VariantSource) returns (r: Result<AggregatedVcfLineMapper, MapperError>)
    ensures r.Failure? <==> source.aggregation == NONE
    ensures r.Failure? ==> r.error == IllegalArgument
    ensures r.Success? ==>
      && fresh(r.value) && r.value.Valid()
      && r.value.source == source && r.value.factory.Some?
  {
    var mapper := new AggregatedVcfLineMapper(source);
    if mapper.factory.None? {
      return Failure(IllegalArgument);
    }
    r := Success(mapper);
  }

  /** A mapper obtained from `New` maps every line through its factory, never failing. */
  method NewThenMapLine(source: VariantSource, line: string, lineNumber: int)
    returns (r: Result<Variants, MapperError>)
    ensures r.Failure? <==> source.aggregation == NONE
    ensures r.Failure? ==> r.error == IllegalArgument
    ensures r.Success? ==>
      && r.value.source == source && r.value.line == line
      && Some(r.value.factory) == FactoryFor(source.aggregation)
  {
    var made := New(source);
    if made.Failure? {
      return Failure(made.error);
    }
    r := made.value.MapLine(line, lineNumber);
  }
}
