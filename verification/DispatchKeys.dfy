/** Canonical device identifiers (internal/mqtt/dispatcher.go, dispatchKey). */
module DispatchKeys {
  import opened Device

  predicate HexDigit(c: char) {
    '0' <= c <= '9' || 'a' <= c <= 'f' || 'A' <= c <= 'F'
  }

  /** The pattern ^0[xX][0-9a-fA-F]+$. */
  predicate HexAddr(s: string) {
    |s| >= 3 && s[0] == '0' && (s[1] == 'x' || s[1] == 'X') &&
    forall i :: 2 <= i < |s| ==> HexDigit(s[i])
  }

  /** strings.ToUpper, on the ASCII characters a hex address consists of. */
  function UpperChar(c: char): char {
    if 'a' <= c <= 'z' then (c as int - 32) as char else c
  }

  function ToUpper(s: string): (u: string)
    ensures |u| == |s|
    ensures forall i :: 0 <= i < |s| ==> u[i] == UpperChar(s[i])
  {
    seq(|s|, i requires 0 <= i < |s| => UpperChar(s[i]))
  }

  function DispatchKey(s: string): string {
    if HexAddr(s) then ToUpper(s) else s
  }

  /** Two characters that are the same up to the case of an ASCII letter. */
  predicate SameLetter(a: char, b: char) {
    || a == b
    || ('a' <= a <= 'z' && b as int + 32 == a as int)
    || ('a' <= b <= 'z' && a as int + 32 == b as int)
  }

  predicate SameUpToCase(a: string, b: string) {
    |a| == |b| && forall i :: 0 <= i < |a| ==> SameLetter(a[i], b[i])
  }

  /** The two spellings of one device identifier. */
  predicate SameDevice(a: string, b: string) {
    a == b || (HexAddr(a) && HexAddr(b) && SameUpToCase(a, b))
  }

  lemma UpperIsHex(s: string)
    requires HexAddr(s)
    ensures HexAddr(ToUpper(s))
  {
    var u := ToUpper(s);
    forall i | 2 <= i < |u| ensures HexDigit(u[i]) {
      assert u[i] == UpperChar(s[i]) && HexDigit(s[i]);
    }
  }

  lemma DispatchKeyIdempotent(s: string)
    ensures DispatchKey(DispatchKey(s)) == DispatchKey(s)
  {
    if HexAddr(s) {
      UpperIsHex(s);
      var u := ToUpper(s);
      assert ToUpper(u) == u;
    }
  }

  lemma UpperAgrees(a: string, b: string)
    requires HexAddr(a) && HexAddr(b)
    ensures ToUpper(a) == ToUpper(b) <==> SameUpToCase(a, b)
  {
    var u, v := ToUpper(a), ToUpper(b);
    if u == v {
      assert |a| == |u| && |b| == |v|;
      forall i | 0 <= i < |a| ensures SameLetter(a[i], b[i]) {
        assert u[i] == v[i];
      }
    }
    if SameUpToCase(a, b) {
      forall i | 0 <= i < |u| ensures u[i] == v[i] {
        assert SameLetter(a[i], b[i]);
        assert i >= 2 ==> HexDigit(a[i]) && HexDigit(b[i]);
      }
      assert u == v;
    }
  }

  /** Two identifiers share a key exactly when they name the same device. */
  lemma DispatchKeyIdentifies(a: string, b: string)
    ensures DispatchKey(a) == DispatchKey(b) <==> SameDevice(a, b)
  {
    if HexAddr(a) { UpperIsHex(a); }
    if HexAddr(b) { UpperIsHex(b); }
    if HexAddr(a) && HexAddr(b) {
      UpperAgrees(a, b);
    } else if HexAddr(a) != HexAddr(b) {
      assert DispatchKey(a) != DispatchKey(b);
    }
  }

  /** The canonical keys an event is delivered under. */
  function EventKeys(ev: SensorEvent): set<string> {
    set n | n in {ev.deviceName, ev.shortAddr} && n != "" :: DispatchKey(n)
  }

  /** An event reaches a subscriber exactly when a non-empty name of the event
      and the subscriber's identifier name the same device. */
  lemma EventReaches(ev: SensorEvent, who: string)
    ensures DispatchKey(who) in EventKeys(ev) <==>
            || (ev.deviceName != "" && SameDevice(ev.deviceName, who))
            || (ev.shortAddr != "" && SameDevice(ev.shortAddr, who))
  {
    DispatchKeyIdentifies(ev.deviceName, who);
    DispatchKeyIdentifies(ev.shortAddr, who);
    if DispatchKey(who) in EventKeys(ev) {
      var n :| n in {ev.deviceName, ev.shortAddr} && n != "" && DispatchKey(n) == DispatchKey(who);
    }
  }

  /** A subscriber under the short address keeps receiving through every rename. */
  lemma RenameKeepsReaching(ev: SensorEvent, newName: string, addr: string)
    requires addr != "" && SameDevice(ev.shortAddr, addr) && ev.shortAddr != ""
    ensures DispatchKey(addr) in EventKeys(ev.(deviceName := newName))
  {
    EventReaches(ev.(deviceName := newName), addr);
  }
}
