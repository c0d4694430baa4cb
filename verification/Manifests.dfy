/**
  The manifest of a publication: what it says of the files, of their identities and of its origin, and how
  long its text is.
 */
module Manifests {
  import opened Wrappers

  type Name = string

  /** What the file system says of a file: numbers that name one content, by a serial that is never given out again. */
  datatype Identity = Identity(serial: nat, stat: seq<int>)

  type Bytes = seq<nat>

  const CATALOGUE: Name := "research.duckdb"

  datatype Digest = Sha256(of: Bytes)

  datatype Record = Record(bytes: nat, sha256: Digest)

  function RecordOf(content: Bytes): Record {
    Record(|content|, Sha256(content))
  }

  /** A decoded value, as far as it is compared: the truth values equal the numbers 0 and 1. */
  datatype Value =
    | Text(text: string) | Number(number: int) | Truth(truth: bool) | Hash(digest: Digest)
    | Nested(width: nat)   // a list or an object, of which only the length of its text matters

  type Document = map<string, Value>

  /** What a manifest says of its origin; a provenance that is no document is `None`. */
  datatype Claims = Claims(
    schema: string, provenance: Option<Document>, sourceRoot: string, destinationRoot: string, preserved: bool)

  datatype Manifest = Manifest(files: map<Name, Record>, identities: map<Name, Identity>, claims: Claims)

  // --------------------------------------------------- the length of a manifest

  const MAX_MANIFEST_BYTES := 16777216

  function Digits(n: nat): nat {
    if n < 10 then 1 else 1 + Digits(n / 10)
  }

  function NumberWidth(n: int): nat {
    if n < 0 then 1 + Digits(-n) else Digits(n)
  }

  /** The length of a character in a quoted text that escapes all but plain ASCII. */
  function CharWidth(c: char): nat {
    var n := c as int;
    if c == '"' || c == '\\' || 8 <= n <= 10 || n == 12 || n == 13 then 2
    else if 32 <= n < 127 then 1
    else if n < 0x10000 then 6
    else 12
  }

  function TextWidth(s: string): nat {
    if s == [] then 2 else TextWidth(s[..|s| - 1]) + CharWidth(s[|s| - 1])
  }

  function TruthWidth(b: bool): nat {
    if b then |"true"| else |"false"|
  }

  const HASH_WIDTH := 66

  function ValueWidth(v: Value): nat {
    match v
    case Text(t) => TextWidth(t)
    case Number(n) => NumberWidth(n)
    case Truth(b) => TruthWidth(b)
    case Hash(_) => HASH_WIDTH
    case Nested(width) => width
  }

  /** A number of a list, on a line of its own. */
  function ListWidth(numbers: seq<int>): nat {
    if numbers == [] then 0
    else ListWidth(numbers[..|numbers| - 1]) + |"      ,\n"| + NumberWidth(numbers[|numbers| - 1])
  }

  function RecordWidth(r: Record): nat {
    |"{\n      \"bytes\": ,\n      \"sha256\": \n    }"| + Digits(r.bytes) + HASH_WIDTH
  }

  function IdentityWidth(id: Identity): nat {
    if id.stat == [] then |"[]"| else |"[\n    ]"| - 1 + ListWidth(id.stat)
  }

  /** Key, separators and value of one entry of an object one level deep. */
  function EntryWidth(key: string, value: nat): nat {
    |"    : ,\n"| + TextWidth(key) + value
  }

  ghost function Any<T>(keys: set<T>): (k: T)
    requires keys != {}
    ensures k in keys
  {
    var k :| k in keys; k
  }

  /** The entries of an object, given the width of each value. */
  ghost function EntriesWidth(widths: map<string, nat>): nat {
    if widths == map[] then 0
    else
      var k := Any(widths.Keys);
      EntryWidth(k, widths[k]) + EntriesWidth(widths - {k})
  }

  ghost function ObjectWidth(widths: map<string, nat>): nat {
    if widths == map[] then |"{}"| else |"{\n  }"| - 1 + EntriesWidth(widths)
  }

  ghost function FilesWidths(files: map<Name, Record>): map<string, nat> {
    map n | n in files :: RecordWidth(files[n])
  }

  ghost function IdentitiesWidths(identities: map<Name, Identity>): map<string, nat> {
    map n | n in identities :: IdentityWidth(identities[n])
  }

  ghost function ProvenanceWidth(provenance: Option<Document>): nat {
    match provenance
    case None => |"null"|
    case Some(doc) => ObjectWidth(map key | key in doc :: ValueWidth(doc[key]))
  }

  /** The keys of a manifest with their indentation, separators and fixed values. */
  const MANIFEST_FRAME :=
    |"{\n"|
    + |"  \"catalogue_regenerated\": ,\n"|
    + |"  \"destination_root\": ,\n"|
    + |"  \"files\": ,\n"|
    + |"  \"native_claims_preserved_verbatim\": ,\n"|
    + |"  \"power_loss_durability_claimed\": false,\n"|
    + |"  \"provenance\": ,\n"|
    + |"  \"raw_immutable\": true,\n"|
    + |"  \"research_ready\": false,\n"|
    + |"  \"schema\": ,\n"|
    + |"  \"source_catalogue_omitted\": ,\n"|
    + |"  \"source_identities\": ,\n"|
    + |"  \"source_root\": \n"|
    + |"}\n"|

  /** The length of the text a manifest is written as: sorted keys, two spaces a level, a final line end. */
  ghost function ManifestBytes(m: Manifest): nat {
    MANIFEST_FRAME
    + TruthWidth(CATALOGUE in m.files) + TruthWidth(CATALOGUE in m.identities) + TruthWidth(m.claims.preserved)
    + TextWidth(m.claims.schema) + TextWidth(m.claims.sourceRoot) + TextWidth(m.claims.destinationRoot)
    + ProvenanceWidth(m.claims.provenance)
    + ObjectWidth(FilesWidths(m.files)) + ObjectWidth(IdentitiesWidths(m.identities))
  }
}
