/** Endpoint descriptors as the relay (StarTram) reports them in its
    `subdomains` list. Only the fields the core reads are kept. */
module Relay {
  import opened Json
  import opened Strings

  datatype Endpoint = Endpoint(url: string, svcType: string, status: Json, port: int)

  /** The five services every pier is expected to have on the relay. */
  const ServiceKeys: set<string> := {"urbit-web", "urbit-ames", "minio", "minio-console", "minio-bucket"}

  /** Whether `url.split('.')[-3]` exists (Python raises IndexError otherwise). */
  predicate HasPierSegment(url: string)
  {
    |Split(url, '.')| >= 3
  }

  /** `url.split('.')[-3]`: the pier-identifying segment of an endpoint hostname. */
  function PierSegment(url: string): string
    requires HasPierSegment(url)
  {
    var parts := Split(url, '.');
    parts[|parts| - 3]
  }

  /** A hostname `seg.d1.d2` with dot-free fields identifies pier `seg`. */
  lemma PierSegmentOf(seg: string, d1: string, d2: string)
    requires '.' !in seg && '.' !in d1 && '.' !in d2
    ensures HasPierSegment(seg + "." + d1 + "." + d2)
    ensures PierSegment(seg + "." + d1 + "." + d2) == seg
  {
    SplitNoSeparator(d2, '.');
    SplitFirst(d1, d2, '.');
    SplitFirst(seg, d1 + "." + d2, '.');
    assert seg + "." + d1 + "." + d2 == seg + ['.'] + (d1 + ['.'] + d2);
  }
}
