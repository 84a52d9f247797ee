/** The values the recorder places in its metadata document (`json.dump` input). */
module Json {

  datatype Value =
    | Null
    | Int(i: int)
    /** A Python float parsed from `text`; its numeric value is not modelled. */
    | Float(text: string)
    | Str(s: string)
    | Object(fields: map<string, Value>)
}
