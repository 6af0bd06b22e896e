/** What both DNS-SD resolvers ask, are told, and report (sections 4.1 and 5 of RFC 6763). */
module ServiceDiscovery {
  import opened Answers
  import opened HostAddresses

  /** Which resolve step a sub-query serves; it also names the question, since a name is its own key. */
  datatype Step = PtrQuery | SrvQuery(instance: Name) | TxtQuery(instance: Name) | AQuery(host: Name) | AaaaQuery(host: Name)

  /** One decoded answer; `Unusable` is a record of another type or one that does not parse. */
  datatype Record = PtrRecord(target: Name) | SrvRecord(host: Name, port: nat) | TxtRecord(txt: seq<Bytes>)
                  | AddrRecord(ip: IpAddr) | Unusable

  datatype ServiceEntry = ServiceEntry(instance: Name, host: Name, port: nat, addrs: Addrs, txt: seq<Bytes>)
}
