/** The bridge records the pipeline classifies, stores and reports. */
module Bridges {

  /** The transport token that opens a bridge line. */
  datatype Transport = Obfs4 | Webtunnel {
    function Token(): string {
      match this
      case Obfs4 => "obfs4"
      case Webtunnel => "webtunnel"
    }
  }

  /** One of the four categories `obfs4_ipv4`, `obfs4_ipv6`, `webtunnel_ipv4`, `webtunnel_ipv6`. */
  datatype Category = Category(transport: Transport, ipv6: bool) {
    /** The category's key as the source spells it. */
    function Name(): string {
      transport.Token() + (if ipv6 then "_ipv6" else "_ipv4")
    }
  }

  /** Different categories have different names. */
  lemma NameInjective(a: Category, b: Category)
    ensures a.Name() == b.Name() <==> a == b
  {
    if a.transport != b.transport {
      assert |a.Name()| != |b.Name()|;
    } else if a.ipv6 != b.ipv6 {
      assert a.Name()[|a.Name()| - 1] != b.Name()[|b.Name()| - 1];
    }
  }

  /** The four categories, in the order the source lists its files and URLs. */
  const AllCategories: seq<Category> := [
    Category(Obfs4, false), Category(Obfs4, true), Category(Webtunnel, false), Category(Webtunnel, true)
  ]

  /** The transport-specific fields of a bridge record. */
  datatype TransportFields =
    | Obfs4Fields(cert: string, iatMode: string)
    | WebtunnelFields(url: string, ver: string)

  /** The `data` object the classifier builds for one line. */
  datatype BridgeData = BridgeData(
    bridge: string,        // the trimmed line
    ip: string,            // the host with every bracket removed
    port: string,
    fingerprint: string,
    fields: TransportFields,
    addedAt: string        // the timestamp of classification, passed in
  )

  /** What `parseAndClassifyBridge` returns for a line it accepts. */
  datatype Classified = Classified(cat: Category, fingerprint: string, data: BridgeData)
}
