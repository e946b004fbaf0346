/** Decoded JSON objects, as far as the services look into them. */
module JsonValues {
  datatype Json = Text(text: string) | Other(id: int)

  type Fields = map<string, Json>
}
