/** The four-character codes of RIFF/WAVE files and the INFO field names shared by the WAV demuxer and muxer. */
module Riff {
  import opened Wrappers
  import opened Ints

  const RIFF_ID: seq<u8> := [0x52, 0x49, 0x46, 0x46]   // "RIFF"
  const WAVE_ID: seq<u8> := [0x57, 0x41, 0x56, 0x45]   // "WAVE"
  const FMT_ID: seq<u8> := [0x66, 0x6D, 0x74, 0x20]    // "fmt "
  const LIST_ID: seq<u8> := [0x4C, 0x49, 0x53, 0x54]   // "LIST"
  const DATA_ID: seq<u8> := [0x64, 0x61, 0x74, 0x61]   // "data"
  const INFO_ID: seq<u8> := [0x49, 0x4E, 0x46, 0x4F]   // "INFO"

  const IART: seq<u8> := [0x49, 0x41, 0x52, 0x54]
  const INAM: seq<u8> := [0x49, 0x4E, 0x41, 0x4D]
  const ICOM: seq<u8> := [0x49, 0x43, 0x4F, 0x4D]
  const ICOP: seq<u8> := [0x49, 0x43, 0x4F, 0x50]
  const ISFT: seq<u8> := [0x49, 0x53, 0x46, 0x54]
  const IGNR: seq<u8> := [0x49, 0x47, 0x4E, 0x52]
  const ITRK: seq<u8> := [0x49, 0x54, 0x52, 0x4B]

  /** The bytes as text, one character per byte (exact for ASCII). */
  function TextOf(bytes: seq<u8>): (text: string)
    ensures |text| == |bytes|
    ensures forall i :: 0 <= i < |bytes| ==> text[i] as int == bytes[i]
  {
    seq(|bytes|, i requires 0 <= i < |bytes| => bytes[i] as char)
  }

  /** The metadata field an INFO sub-chunk id stands for, if it is one of the seven known ones. */
  function InfoField(id: seq<u8>): Option<string>
  {
    if id == IART then Some("artist")
    else if id == INAM then Some("title")
    else if id == ICOM then Some("comment")
    else if id == ICOP then Some("copyright")
    else if id == ISFT then Some("software")
    else if id == IGNR then Some("genre")
    else if id == ITRK then Some("track")
    else None
  }

  /** The INFO sub-chunk id the muxer writes for a metadata field, if it knows one. */
  function InfoId(field: string): Option<seq<u8>>
  {
    match field
    case "artist" => Some(IART)
    case "title" => Some(INAM)
    case "comment" => Some(ICOM)
    case "copyright" => Some(ICOP)
    case "software" => Some(ISFT)
    case "genre" => Some(IGNR)
    case "track" => Some(ITRK)
    case _ => None
  }

  /** The two tables are inverse: the muxer's id for a field is read back as that field, and conversely. */
  lemma InfoTablesInverse(field: string, id: seq<u8>)
    ensures InfoId(field).Some? ==> |InfoId(field).value| == 4 && InfoField(InfoId(field).value) == Some(field)
    ensures InfoField(id).Some? ==> InfoId(InfoField(id).value) == Some(id)
  {
  }
}
