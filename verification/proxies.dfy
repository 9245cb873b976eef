/** A proxy node as both scripts see it: a display name plus connection parameters they pass through. */
module Proxies {

  /** Connection parameters: opaque for subscription nodes; the fixed placeholder for synthesised info nodes. */
  datatype Conn =
    | Opaque(id: nat)
    | Shadowsocks(server: string, port: nat, password: string, cipher: string)

  datatype Proxy = Proxy(name: string, conn: Conn)

  /** The names of a node list, in order. */
  function NameList(proxies: seq<Proxy>): (r: seq<string>)
    ensures |r| == |proxies|
    ensures forall i :: 0 <= i < |proxies| ==> r[i] == proxies[i].name
  {
    seq(|proxies|, i requires 0 <= i < |proxies| => proxies[i].name)
  }
}
