/** `src/codec/media_type.rs`: the Rust mirror of `AVMediaType`. */
module MediaTypes {

  datatype MediaType = Unknown | Video | Audio | Data | Subtitle | Attachment | NB

  /** The C enum `AVMediaType`: UNKNOWN is -1, then VIDEO = 0 up to NB = 5. */
  type RawMediaType = k: int | -1 <= k <= 5

  const AVMEDIA_TYPE_UNKNOWN: RawMediaType := -1
  const AVMEDIA_TYPE_VIDEO: RawMediaType := 0
  const AVMEDIA_TYPE_AUDIO: RawMediaType := 1
  const AVMEDIA_TYPE_DATA: RawMediaType := 2
  const AVMEDIA_TYPE_SUBTITLE: RawMediaType := 3
  const AVMEDIA_TYPE_ATTACHMENT: RawMediaType := 4
  const AVMEDIA_TYPE_NB: RawMediaType := 5

  function FromRaw(kind: RawMediaType): (m: MediaType)
    ensures AsRaw(m) == kind
  {
    if kind == AVMEDIA_TYPE_UNKNOWN then Unknown
    else if kind == AVMEDIA_TYPE_VIDEO then Video
    else if kind == AVMEDIA_TYPE_AUDIO then Audio
    else if kind == AVMEDIA_TYPE_DATA then Data
    else if kind == AVMEDIA_TYPE_SUBTITLE then Subtitle
    else if kind == AVMEDIA_TYPE_ATTACHMENT then Attachment
    else NB
  }

  function AsRaw(m: MediaType): (kind: RawMediaType)
    ensures kind == AVMEDIA_TYPE_VIDEO <==> m == Video
    ensures kind == AVMEDIA_TYPE_AUDIO <==> m == Audio
  {
    match m
    case Unknown => AVMEDIA_TYPE_UNKNOWN
    case Video => AVMEDIA_TYPE_VIDEO
    case Audio => AVMEDIA_TYPE_AUDIO
    case Data => AVMEDIA_TYPE_DATA
    case Subtitle => AVMEDIA_TYPE_SUBTITLE
    case Attachment => AVMEDIA_TYPE_ATTACHMENT
    case NB => AVMEDIA_TYPE_NB
  }

  /** Every raw kind survives the trip through the Rust enum. */
  lemma RawRoundTrip(kind: RawMediaType)
    ensures AsRaw(FromRaw(kind)) == kind
  {
  }

  /** Every Rust variant survives the trip through the C enum. */
  lemma VariantRoundTrip(m: MediaType)
    ensures FromRaw(AsRaw(m)) == m
  {
  }

  /** Distinct variants have distinct raw values (so `AsRaw` is injective). */
  lemma AsRawInjective(m1: MediaType, m2: MediaType)
    ensures AsRaw(m1) == AsRaw(m2) ==> m1 == m2
  {
    VariantRoundTrip(m1);
    VariantRoundTrip(m2);
  }

  predicate IsUnknown(m: MediaType) { m.Unknown? }
  predicate IsVideo(m: MediaType) { m.Video? }
  predicate IsAudio(m: MediaType) { m.Audio? }
  predicate IsData(m: MediaType) { m.Data? }
  predicate IsSubtitle(m: MediaType) { m.Subtitle? }
  predicate IsAttachment(m: MediaType) { m.Attachment? }
  predicate IsNb(m: MediaType) { m.NB? }

  /** How many of the seven `is_*` predicates hold of `m`. */
  function PredicatesHolding(m: MediaType): (n: nat)
  {
    (if IsUnknown(m) then 1 else 0) + (if IsVideo(m) then 1 else 0)
    + (if IsAudio(m) then 1 else 0) + (if IsData(m) then 1 else 0)
    + (if IsSubtitle(m) then 1 else 0) + (if IsAttachment(m) then 1 else 0)
    + (if IsNb(m) then 1 else 0)
  }

  /** Exactly one `is_*` predicate holds, and it is the one of the raw kind. */
  lemma ExactlyOnePredicate(m: MediaType)
    ensures PredicatesHolding(m) == 1
    ensures IsVideo(m) <==> AsRaw(m) == AVMEDIA_TYPE_VIDEO
    ensures IsAudio(m) <==> AsRaw(m) == AVMEDIA_TYPE_AUDIO
    ensures IsUnknown(m) <==> AsRaw(m) == AVMEDIA_TYPE_UNKNOWN
  {
  }
}
