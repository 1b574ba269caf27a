/**
 * The host column of the full library's log line: the short host name, the
 * fully qualified name and the IP addresses, joined by `//`. The addresses
 * come from the interface list (`IPv4%%<interface>%%<address>` entries,
 * joined by `//`) or, when that list is unavailable, from resolving the host
 * name. The lookups themselves (`gethostname`, `getaddrinfo`, `getnameinfo`,
 * `getifaddrs`, `inet_ntop`) are inputs.
 */
module HostInfo {
  import opened CStrings

  const FQHN_AND_IP_SEPARATOR := "//"
  const IPVER_SEPARATOR := "%%"
  const HOSTNAME_ERROR := "HOSTNAME_ERROR"
  const FQHN_ERROR := "FQHN_ERROR"
  const FQHN_NOT_RESOLVED_ERROR := "FQHN_NOT_RESOLVED_ERROR"
  const IP_ADDRESS_ERROR := "IP_ADDRESS_ERROR"
  /** `snprintf(buffer, MAX_STRING_LEN-1, ...)` for one interface entry. */
  const ENTRY_SIZE := 1023

  datatype Family = Inet | Inet6 | OtherFamily

  /** One `getifaddrs` entry: its name, the family of its address (none when `ifa_addr` is NULL), and its numeric host. */
  datatype Interface = Interface(name: Str, family: Option<Family>, numericHost: Option<Str>)

  /** One address of the host name, as `inet_ntop` renders it. */
  datatype Address = Address(family: Family, text: Str)

  /** What the system reports; `None` is a failed call. */
  datatype Network = Network(
    hostname: Option<Str>,
    reverseNames: Option<seq<Option<Str>>>,
    interfaces: Option<seq<Interface>>,
    addresses: Option<seq<Address>>)

  function VersionTag(f: Family): Str {
    if f == Inet then "IPv4" else "IPv6"
  }

  // ---------------------------------------------------------------------
  // The fully qualified name.

  /** The first address that resolves to a name, else `FQHN_NOT_RESOLVED_ERROR`. */
  function FirstName(names: seq<Option<Str>>): (r: Str)
    ensures r == FQHN_NOT_RESOLVED_ERROR <==> (forall k :: 0 <= k < |names| ==> names[k].None?) || names[FirstSome(names)].value == FQHN_NOT_RESOLVED_ERROR
    decreases |names|
  {
    if names == [] then FQHN_NOT_RESOLVED_ERROR
    else if names[0].Some? then names[0].value
    else FirstName(names[1..])
  }

  /** Index of the first resolved address, or the length when there is none. */
  function FirstSome(names: seq<Option<Str>>): (i: nat)
    ensures i <= |names| && forall k :: 0 <= k < i ==> names[k].None?
    ensures i < |names| ==> names[i].Some?
    decreases |names|
  {
    if names == [] || names[0].Some? then 0 else 1 + FirstSome(names[1..])
  }

  /** The `getnameinfo` loop, left at the first success. */
  method FindName(names: seq<Option<Str>>) returns (r: Str)
    ensures r == FirstName(names)
    ensures FirstSome(names) < |names| ==> r == names[FirstSome(names)].value
  {
    var i := 0;
    while i < |names|
      invariant i <= |names|
      invariant forall k :: 0 <= k < i ==> names[k].None?
      invariant FirstName(names[i..]) == FirstName(names)
    {
      if names[i].Some? {
        FirstNameAt(names, i);
        return names[i].value;
      }
      assert names[i..][1..] == names[i + 1..];
      i := i + 1;
    }
    return FQHN_NOT_RESOLVED_ERROR;
  }

  lemma {:induction false} FirstNameAt(names: seq<Option<Str>>, i: nat)
    requires i < |names| && names[i].Some?
    requires forall k :: 0 <= k < i ==> names[k].None?
    ensures FirstName(names) == names[i].value && FirstSome(names) == i
    decreases i
  {
    if i > 0 {
      FirstNameAt(names[1..], i - 1);
    }
  }

  /** `FQHN_ERROR` when the host name does not resolve at all. */
  function Fqdn(reverseNames: Option<seq<Option<Str>>>): Str {
    match reverseNames
    case None => FQHN_ERROR
    case Some(names) => FirstName(names)
  }

  // ---------------------------------------------------------------------
  // The addresses from the interface list.

  predicate Usable(i: Interface) {
    i.family.Some? && i.family.value != OtherFamily && i.numericHost.Some?
  }

  function InterfaceEntry(i: Interface): Str
    requires Usable(i)
  {
    Truncate(VersionTag(i.family.value) + IPVER_SEPARATOR + i.name + IPVER_SEPARATOR + i.numericHost.value, ENTRY_SIZE)
  }

  /** The number of usable interfaces in the list. */
  function UsableCount(ifs: seq<Interface>): (n: nat)
    ensures n <= |ifs|
    decreases |ifs|
  {
    if ifs == [] then 0
    else UsableCount(ifs[..|ifs| - 1]) + (if Usable(ifs[|ifs| - 1]) then 1 else 0)
  }

  /** The entries of the usable interfaces, in list order. */
  function InterfaceEntries(ifs: seq<Interface>): (es: seq<Str>)
    ensures forall k :: 0 <= k < |es| ==> es[k] != []
    ensures |es| <= |ifs|
    ensures |es| == UsableCount(ifs)
    decreases |ifs|
  {
    if ifs == [] then []
    else
      var init := InterfaceEntries(ifs[..|ifs| - 1]);
      var last := ifs[|ifs| - 1];
      if Usable(last) then init + [InterfaceEntry(last)] else init
  }

  /** The interface loop: each entry appended with `//` in front unless the text is still empty. */
  method JoinInterfaces(ifs: seq<Interface>) returns (ips: Str)
    ensures ips == Join(InterfaceEntries(ifs), FQHN_AND_IP_SEPARATOR)
  {
    ips := [];
    var i := 0;
    while i < |ifs|
      invariant i <= |ifs|
      invariant ips == Join(InterfaceEntries(ifs[..i]), FQHN_AND_IP_SEPARATOR)
    {
      assert ifs[..i + 1][..i] == ifs[..i];
      var entries := InterfaceEntries(ifs[..i]);
      var ifa := ifs[i];
      if ifa.family.Some? && (ifa.family.value == Inet || ifa.family.value == Inet6) && ifa.numericHost.Some? {
        var entry := InterfaceEntry(ifa);
        JoinEmpty(entries, FQHN_AND_IP_SEPARATOR);
        if |ips| != 0 {
          ips := ips + FQHN_AND_IP_SEPARATOR;
          JoinSnoc(entries, entry, FQHN_AND_IP_SEPARATOR);
        } else {
          assert entries + [entry] == [entry];
        }
        ips := ips + entry;
      }
      i := i + 1;
    }
    assert ifs[..i] == ifs;
  }

  /** Every listed entry is the entry of a usable interface. */
  lemma {:induction false} EntriesTagged(ifs: seq<Interface>, k: nat)
    requires k < |InterfaceEntries(ifs)|
    ensures exists j :: 0 <= j < |ifs| && Usable(ifs[j]) && InterfaceEntries(ifs)[k] == InterfaceEntry(ifs[j])
    decreases |ifs|
  {
    var init := InterfaceEntries(ifs[..|ifs| - 1]);
    if k < |init| {
      EntriesTagged(ifs[..|ifs| - 1], k);
      var j :| 0 <= j < |ifs| - 1 && Usable(ifs[..|ifs| - 1][j]) && init[k] == InterfaceEntry(ifs[..|ifs| - 1][j]);
      assert ifs[..|ifs| - 1][j] == ifs[j];
    } else {
      assert Usable(ifs[|ifs| - 1]);
    }
  }

  /**
   * Every usable interface contributes its entry, at the position given by
   * the number of usable interfaces before it, so the entries keep list order.
   */
  lemma {:induction false} UsableListed(ifs: seq<Interface>, j: nat)
    requires j < |ifs| && Usable(ifs[j])
    ensures UsableCount(ifs[..j]) < |InterfaceEntries(ifs)|
    ensures InterfaceEntries(ifs)[UsableCount(ifs[..j])] == InterfaceEntry(ifs[j])
    decreases |ifs|
  {
    var front := ifs[..|ifs| - 1];
    if j == |ifs| - 1 {
      assert ifs[..j] == front;
    } else {
      UsableListed(front, j);
      assert front[..j] == ifs[..j];
      assert front[j] == ifs[j];
    }
  }

  // ---------------------------------------------------------------------
  // The addresses from resolving the host name.

  function AddressEntry(a: Address): Str {
    Truncate(VersionTag(a.family) + IPVER_SEPARATOR + a.text, ENTRY_SIZE)
  }

  /** The fallback as intended: each address tagged like an interface entry. */
  function AddressEntries(addrs: seq<Address>): (es: seq<Str>)
    ensures |es| == |addrs|
    ensures forall k :: 0 <= k < |es| ==> es[k] == AddressEntry(addrs[k])
  {
    seq(|addrs|, k requires 0 <= k < |addrs| => AddressEntry(addrs[k]))
  }

  /** The fallback as written: the tagged entry is built but the bare address is appended. */
  function AddressTexts(addrs: seq<Address>): (es: seq<Str>)
    ensures |es| == |addrs|
    ensures forall k :: 0 <= k < |es| ==> es[k] == addrs[k].text
  {
    seq(|addrs|, k requires 0 <= k < |addrs| => addrs[k].text)
  }

  /**
   * The fallback loop as written. The text is joined by the same emptiness
   * test as the interface loop, so an empty address text adds no separator.
   */
  method JoinAddressesAsWritten(addrs: seq<Address>) returns (ips: Str)
    ensures ips == JoinNonEmpty(AddressTexts(addrs), FQHN_AND_IP_SEPARATOR)
  {
    ips := [];
    var i := 0;
    while i < |addrs|
      invariant i <= |addrs|
      invariant ips == JoinNonEmpty(AddressTexts(addrs[..i]), FQHN_AND_IP_SEPARATOR)
    {
      assert AddressTexts(addrs[..i + 1]) == AddressTexts(addrs[..i]) + [addrs[i].text];
      var buffer := AddressEntry(addrs[i]);
      if |ips| != 0 {
        ips := ips + FQHN_AND_IP_SEPARATOR;
      }
      ips := ips + addrs[i].text;
      i := i + 1;
    }
    assert addrs[..i] == addrs;
  }

  /** The fallback loop as intended: the tagged entries. */
  method JoinAddresses(addrs: seq<Address>) returns (ips: Str)
    ensures ips == Join(AddressEntries(addrs), FQHN_AND_IP_SEPARATOR)
  {
    ips := [];
    var i := 0;
    while i < |addrs|
      invariant i <= |addrs|
      invariant ips == Join(AddressEntries(addrs[..i]), FQHN_AND_IP_SEPARATOR)
    {
      var entries := AddressEntries(addrs[..i]);
      assert AddressEntries(addrs[..i + 1]) == entries + [AddressEntry(addrs[i])];
      JoinEmpty(entries, FQHN_AND_IP_SEPARATOR);
      if |ips| != 0 {
        ips := ips + FQHN_AND_IP_SEPARATOR;
        JoinSnoc(entries, AddressEntry(addrs[i]), FQHN_AND_IP_SEPARATOR);
      } else {
        assert entries + [AddressEntry(addrs[i])] == [AddressEntry(addrs[i])];
      }
      ips := ips + AddressEntry(addrs[i]);
      i := i + 1;
    }
    assert addrs[..i] == addrs;
  }

  /** `strcat` with a separator in front unless the text so far is empty. */
  function JoinNonEmpty(xs: seq<Str>, sep: Str): Str
    decreases |xs|
  {
    if xs == [] then []
    else
      var init := JoinNonEmpty(xs[..|xs| - 1], sep);
      (if |init| != 0 then init + sep else init) + xs[|xs| - 1]
  }

  /** For non-empty pieces the emptiness test is the usual join. */
  lemma {:induction false} JoinNonEmptyIsJoin(xs: seq<Str>, sep: Str)
    requires forall k :: 0 <= k < |xs| ==> xs[k] != []
    ensures JoinNonEmpty(xs, sep) == Join(xs, sep)
    decreases |xs|
  {
    if xs != [] {
      var init := xs[..|xs| - 1];
      JoinNonEmptyIsJoin(init, sep);
      JoinEmpty(init, sep);
      if init == [] {
        assert xs == [xs[0]];
      } else {
        JoinSnoc(init, xs[|xs| - 1], sep);
        assert init + [xs[|xs| - 1]] == xs;
      }
    }
  }

  // ---------------------------------------------------------------------
  // The column.

  /** The address text with the fallback corrected. */
  function Ips(net: Network): Str {
    if net.hostname.None? then IP_ADDRESS_ERROR
    else if net.interfaces.Some? then Join(InterfaceEntries(net.interfaces.value), FQHN_AND_IP_SEPARATOR)
    else if net.addresses.Some? then Join(AddressEntries(net.addresses.value), FQHN_AND_IP_SEPARATOR)
    else IP_ADDRESS_ERROR
  }

  /** The host column with both corrections: always defined. */
  function HostColumn(net: Network): Str {
    var host := net.hostname.GetOr(HOSTNAME_ERROR);
    var fqdn := if net.hostname.None? then FQHN_ERROR else Fqdn(net.reverseNames);
    Join([host, fqdn, Ips(net)], FQHN_AND_IP_SEPARATOR)
  }

  /**
   * The host column as written: with no host name the fully qualified name
   * and the addresses are never set and `strlen` is applied to NULL, which
   * is `None` here.
   */
  function HostColumnAsWritten(net: Network): Option<Str> {
    match net.hostname
    case None => None
    case Some(host) =>
      var ips :=
        if net.interfaces.Some? then Join(InterfaceEntries(net.interfaces.value), FQHN_AND_IP_SEPARATOR)
        else if net.addresses.Some? then JoinNonEmpty(AddressTexts(net.addresses.value), FQHN_AND_IP_SEPARATOR)
        else IP_ADDRESS_ERROR;
      Some(Join([host, Fqdn(net.reverseNames), ips], FQHN_AND_IP_SEPARATOR))
  }

  /** The length pass and the `strcat` pass over the three parts. */
  method BuildHostColumn(net: Network) returns (column: Str, len: nat)
    ensures column == HostColumn(net)
    ensures len == |column|
  {
    var host, fqdn, ips;
    if net.hostname.None? {
      host, fqdn, ips := HOSTNAME_ERROR, FQHN_ERROR, IP_ADDRESS_ERROR;
    } else {
      host := net.hostname.value;
      if net.reverseNames.None? {
        fqdn := FQHN_ERROR;
      } else {
        fqdn := FindName(net.reverseNames.value);
      }
      if net.interfaces.Some? {
        ips := JoinInterfaces(net.interfaces.value);
      } else if net.addresses.Some? {
        ips := JoinAddresses(net.addresses.value);
      } else {
        ips := IP_ADDRESS_ERROR;
      }
    }
    len := |host| + |FQHN_AND_IP_SEPARATOR| + |fqdn| + |FQHN_AND_IP_SEPARATOR| + |ips|;
    column := host + FQHN_AND_IP_SEPARATOR + fqdn + FQHN_AND_IP_SEPARATOR + ips;
    JoinThree(host, fqdn, ips, FQHN_AND_IP_SEPARATOR);
  }

  lemma JoinThree(a: Str, b: Str, c: Str, sep: Str)
    ensures Join([a, b, c], sep) == a + sep + b + sep + c
  {
    assert [a, b, c][1..] == [b, c];
    assert [b, c][1..] == [c];
    assert Join([b, c], sep) == b + sep + c;
    assert Join([a, b, c], sep) == a + sep + (b + sep + c);
  }

  /** The corrected column agrees with the source wherever the source does not crash or drop tags. */
  lemma CorrectedAgrees(net: Network)
    requires net.hostname.Some? && (net.interfaces.Some? || net.addresses.None?)
    ensures HostColumnAsWritten(net) == Some(HostColumn(net))
  {
  }

  /** A failed `gethostname` gives three error markers in the corrected column. */
  lemma NoHostnameCorrected(net: Network)
    requires net.hostname.None?
    ensures HostColumn(net) == HOSTNAME_ERROR + "//" + FQHN_ERROR + "//" + IP_ADDRESS_ERROR
  {
    JoinThree(HOSTNAME_ERROR, FQHN_ERROR, IP_ADDRESS_ERROR, FQHN_AND_IP_SEPARATOR);
  }

  /** As written, a failed `gethostname` reaches `strlen(NULL)`. */
  lemma NoHostnameCrashesAsWritten(net: Network)
    requires net.hostname.None?
    ensures HostColumnAsWritten(net).None?
  {
  }

  /** As written, a fallback address loses its `IPv4%%` tag; corrected, it keeps it. */
  lemma FallbackTagAsWritten(host: Str, ip: Str)
    ensures var net := Network(Some(host), None, None, Some([Address(Inet, ip)]));
      HostColumnAsWritten(net) == Some(host + "//" + FQHN_ERROR + "//" + ip) &&
      HostColumn(net) == host + "//" + FQHN_ERROR + "//" + Truncate("IPv4" + "%%" + ip, ENTRY_SIZE)
  {
    var addrs := [Address(Inet, ip)];
    var texts := AddressTexts(addrs);
    assert texts == [ip];
    assert JoinNonEmpty(texts, FQHN_AND_IP_SEPARATOR) == ip by {
      assert texts[..0] == [];
    }
    var entries := AddressEntries(addrs);
    assert |entries| == 1 && entries[0] == AddressEntry(addrs[0]);
    assert entries == [Truncate("IPv4" + "%%" + ip, ENTRY_SIZE)];
    JoinThree(host, FQHN_ERROR, ip, FQHN_AND_IP_SEPARATOR);
    JoinThree(host, FQHN_ERROR, Truncate("IPv4" + "%%" + ip, ENTRY_SIZE), FQHN_AND_IP_SEPARATOR);
  }

  /** Corrected, both address sources produce entries of the one shape `IPvN%%...`. */
  lemma EntriesShaped(net: Network, k: nat)
    requires net.hostname.Some?
    requires net.interfaces.Some? ==> k < |InterfaceEntries(net.interfaces.value)|
    requires net.interfaces.None? && net.addresses.Some? ==> k < |net.addresses.value|
    requires net.interfaces.Some? || net.addresses.Some?
    ensures var es := if net.interfaces.Some? then InterfaceEntries(net.interfaces.value) else AddressEntries(net.addresses.value);
      ("IPv4%%" <= es[k] || "IPv6%%" <= es[k])
  {
    if net.interfaces.Some? {
      EntriesTagged(net.interfaces.value, k);
    }
  }
}
