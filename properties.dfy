/** `PatternProperties`: three nullable strings that only group patterns read. */
module Properties {
  import opened Wrappers

  /** The name of a group, its group type and its named-group style; each may be null. */
  datatype PatternProperties = PatternProperties(
    name: Option<string>,
    groupType: Option<string>,
    namedGroupStyle: Option<string>)

  /** `new PatternProperties()`: all three null. */
  const Default := PatternProperties(None, None, None)
}
