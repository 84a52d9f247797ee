/** The metadata record of one recording (core/metadata.py). */
module Metadata {
  import opened Wrappers
  import opened Json
  import FileStore

  /** The five keys of a metadata document. */
  const MetadataKeys: set<string> := {"subject_id", "session_id", "timestamp", "frame_count", "camera_settings"}

  /** The fields a reader recovers from a metadata document. */
  datatype Record = Record(subjectId: string, sessionId: string, timestamp: string, frameCount: int, cameraSettings: Value)

  /**
   * `generate_metadata`. `now` stands for the one reading of the clock
   * (`datetime.now().isoformat()`) the call makes.
   */
  function GenerateMetadata(subjectId: string, sessionId: string, frameCount: int, cameraSettings: Value, now: string): (m: map<string, Value>)
    ensures m.Keys == MetadataKeys
  {
    map["subject_id" := Str(subjectId),
        "session_id" := Str(sessionId),
        "timestamp" := Str(now),
        "frame_count" := Int(frameCount),
        "camera_settings" := cameraSettings]
  }

  /**
   * Reading a metadata document back: exactly the five keys, the identifiers
   * and timestamp as strings and the frame count as an integer.
   */
  function Decode(m: map<string, Value>): Option<Record>
  {
    if m.Keys == MetadataKeys && m["subject_id"].Str? && m["session_id"].Str?
       && m["timestamp"].Str? && m["frame_count"].Int?
    then Some(Record(m["subject_id"].s, m["session_id"].s, m["timestamp"].s, m["frame_count"].i, m["camera_settings"]))
    else None
  }

  /**
   * What `generate_metadata` stores reads back unchanged: the identifiers,
   * the frame count and the camera settings as given, and the one timestamp.
   */
  lemma DecodeGenerated(subjectId: string, sessionId: string, frameCount: int, cameraSettings: Value, now: string)
    ensures Decode(GenerateMetadata(subjectId, sessionId, frameCount, cameraSettings, now))
            == Some(Record(subjectId, sessionId, now, frameCount, cameraSettings))
  {
  }

  /**
   * Conversely, every document that reads back as a record is the one
   * `generate_metadata` builds from that record: nothing is added or dropped.
   */
  lemma GeneratedFromDecoded(m: map<string, Value>)
    requires Decode(m).Some?
    ensures var r := Decode(m).value;
            GenerateMetadata(r.subjectId, r.sessionId, r.frameCount, r.cameraSettings, r.timestamp) == m
  {
    var r := Decode(m).value;
    var g := GenerateMetadata(r.subjectId, r.sessionId, r.frameCount, r.cameraSettings, r.timestamp);
    assert forall k :: k in m ==> k in g && g[k] == m[k];
  }

  /** `save_metadata_to_json`: the document is written to `filename`, replacing what was there. */
  method SaveMetadataToJson(fs: FileStore.FileSystem, metadata: map<string, Value>, filename: string)
    modifies fs
    ensures fs.log == old(fs.log) + [FileStore.FileWrite(filename, FileStore.JsonDoc(Object(metadata)))]
    ensures fs.dirs == old(fs.dirs)
  {
    fs.Write(filename, FileStore.JsonDoc(Object(metadata)));
  }
}
