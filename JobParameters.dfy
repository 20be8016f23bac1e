/**
 * The parameter set a batch job is started with, and the well-known
 * parameter names the validators look up in it.
 */
module JobParameters {
  import opened Wrappers

  /**
   * A job's parameters: each key maps to its string value, or to `None` when
   * the key was added with a null value. A key that is not in the map was
   * never supplied.
   */
  type Params = map<string, Option<string>>

  const DB_NAME: string := "spring.data.mongodb.database"
  const DB_COLLECTIONS_VARIANTS_NAME: string := "db.collections.variants.name"
  const DB_COLLECTIONS_FILES_NAME: string := "db.collections.files.name"
  const INPUT_STUDY_ID: string := "input.study.id"
  const INPUT_VCF_ID: string := "input.vcf.id"
  const OUTPUT_DIR_ANNOTATION: string := "output.dir.annotation"
  const CONFIG_RESTARTABILITY_ALLOW: string := "config.restartability.allow"
  const CONFIG_CHUNK_SIZE: string := "config.chunk.size"

  /** The parameter names are pairwise distinct. */
  lemma NamesDistinct()
    ensures DB_NAME != DB_COLLECTIONS_VARIANTS_NAME && DB_NAME != DB_COLLECTIONS_FILES_NAME
    ensures DB_NAME != INPUT_STUDY_ID && DB_NAME != INPUT_VCF_ID && DB_NAME != OUTPUT_DIR_ANNOTATION
    ensures DB_NAME != CONFIG_RESTARTABILITY_ALLOW && DB_NAME != CONFIG_CHUNK_SIZE
    ensures DB_COLLECTIONS_VARIANTS_NAME != DB_COLLECTIONS_FILES_NAME
    ensures DB_COLLECTIONS_VARIANTS_NAME != INPUT_STUDY_ID && DB_COLLECTIONS_VARIANTS_NAME != INPUT_VCF_ID
    ensures DB_COLLECTIONS_VARIANTS_NAME != OUTPUT_DIR_ANNOTATION
    ensures DB_COLLECTIONS_VARIANTS_NAME != CONFIG_RESTARTABILITY_ALLOW && DB_COLLECTIONS_VARIANTS_NAME != CONFIG_CHUNK_SIZE
    ensures DB_COLLECTIONS_FILES_NAME != INPUT_STUDY_ID && DB_COLLECTIONS_FILES_NAME != INPUT_VCF_ID
    ensures DB_COLLECTIONS_FILES_NAME != OUTPUT_DIR_ANNOTATION
    ensures DB_COLLECTIONS_FILES_NAME != CONFIG_RESTARTABILITY_ALLOW && DB_COLLECTIONS_FILES_NAME != CONFIG_CHUNK_SIZE
    ensures INPUT_STUDY_ID != INPUT_VCF_ID && INPUT_STUDY_ID != OUTPUT_DIR_ANNOTATION
    ensures INPUT_STUDY_ID != CONFIG_RESTARTABILITY_ALLOW && INPUT_STUDY_ID != CONFIG_CHUNK_SIZE
    ensures INPUT_VCF_ID != OUTPUT_DIR_ANNOTATION
    ensures INPUT_VCF_ID != CONFIG_RESTARTABILITY_ALLOW && INPUT_VCF_ID != CONFIG_CHUNK_SIZE
    ensures OUTPUT_DIR_ANNOTATION != CONFIG_RESTARTABILITY_ALLOW && OUTPUT_DIR_ANNOTATION != CONFIG_CHUNK_SIZE
    ensures CONFIG_RESTARTABILITY_ALLOW != CONFIG_CHUNK_SIZE
  {
    assert DB_NAME[0] != DB_COLLECTIONS_VARIANTS_NAME[0];
  }

  /**
   * The string a validator reads for `key`, as `JobParameters.getString`
   * gives it: `None` both for an absent key and for a null value.
   */
  function GetString(p: Params, key: string): (r: Option<string>)
    ensures r.Some? <==> key in p && p[key].Some?
    ensures r.Some? ==> p[key] == r
  {
    if key in p then p[key] else None
  }

  /** `p` and `q` hold the same entries for every key in `keys`. */
  predicate AgreeOn(p: Params, q: Params, keys: set<string>)
  {
    forall k :: k in keys ==> (k in p <==> k in q) && (k in p ==> p[k] == q[k])
  }
}
