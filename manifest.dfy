/**
 * The JSON documents the add-on writes and reads: the queue manifest handed
 * to the background worker, the saved-state file and the `.rendercue_data`
 * text block. A document is modelled after parsing, as a record whose
 * fields are `None` when the key is absent; the JSON text itself (spacing,
 * `indent=4`) is not modelled.
 */
module Manifest {
  import opened Wrappers

  /** The `scene_name` key: absent, `null`, or a string. */
  datatype NameField = NoKey | NullName | Name(name: string)

  /** One entry of the `jobs` list, key by key. */
  datatype JobRecord = JobRecord(
    sceneName: NameField,
    overrideFrameRange: Option<bool>,
    frameStart: Option<int>,
    frameEnd: Option<int>,
    overrideOutput: Option<bool>,
    outputPath: Option<string>,
    overrideResolution: Option<bool>,
    resolutionScale: Option<int>,
    overrideSamples: Option<bool>,
    samples: Option<int>,
    overrideFormat: Option<bool>,
    renderFormat: Option<string>,
    overrideEngine: Option<bool>,
    renderEngine: Option<string>,
    overrideViewLayer: Option<bool>,
    viewLayer: Option<string>
  )

  /** A `jobs` entry is normally an object; anything else makes `.get` fail. */
  datatype JobEntry = JobObject(rec: JobRecord) | JobNotObject

  /** The top-level object. */
  datatype Record = Record(
    timestamp: Option<int>,
    globalOutputPath: Option<string>,
    useCustomOutputPath: Option<bool>,
    outputStructure: Option<string>,
    jobs: Option<seq<JobEntry>>
  )

  /** A parsed JSON value at top level: an object, or something else. */
  datatype Document = DocObject(rec: Record) | DocNotObject

  /** What reading a file or text block yields: a parsed document, or a parse error. */
  datatype Content = Parsed(doc: Document) | Unparseable

  /** Python truthiness of an optional boolean (`d.get(key)`). */
  predicate Truthy(b: Option<bool>) { b == Some(true) }

  /** The files the add-on reads and writes, by path. */
  class Disk {
    var files: map<string, Content>

    constructor(files: map<string, Content>)
      ensures this.files == files
    {
      this.files := files;
    }
  }
}
