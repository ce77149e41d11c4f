/** utility/FirmwareElement.cpp: a named element that also records which
    firmware declared it, with the name matching both registries rely on. */
module FirmwareElement {
  import opened Strings
  import opened Json

  /** The text of `constants::all_constant_string`, the firmware wildcard. */
  const AllText: string := "all"

  class Element {
    var name: ConstantString
    var firmwareName: ConstantString

    /** `FirmwareElement()`: empty name and empty firmware name. */
    constructor ()
      ensures name == EmptyConstantString && firmwareName == EmptyConstantString
    {
      name := EmptyConstantString;
      firmwareName := EmptyConstantString;
    }

    method SetName(n: ConstantString)
      modifies this
      ensures name == n && firmwareName == old(firmwareName)
    {
      name := n;
    }

    method SetFirmwareName(f: ConstantString)
      modifies this
      ensures firmwareName == f && name == old(name)
    {
      firmwareName := f;
    }

    /** `compareName(const char *)` */
    predicate CompareNameText(t: string)
      reads this
    {
      EqualsIgnoreCase(name.text, t)
    }

    /** `compareName(const ConstantString &)` */
    predicate CompareName(c: ConstantString)
      reads this
    {
      SameObject(c, name)
    }

    /** `compareFirmwareName(const char *)`: the wildcard text, or exactly
        the recorded firmware name. */
    predicate CompareFirmwareNameText(t: string)
      reads this
    {
      t == AllText || firmwareName.text == t
    }

    /** `compareFirmwareName(const ConstantString &)`: a constant string
        whose text is the wildcard, or the recorded object itself. */
    predicate CompareFirmwareName(c: ConstantString)
      reads this
    {
      c.text == AllText || SameObject(c, firmwareName)
    }

    /** `firmwareNameInArray`: scans the JSON array, read element by element
        as C strings, and stops at the first accepted name. */
    method FirmwareNameInArray(a: seq<JsonVal>) returns (found: bool)
      ensures found <==> exists i :: 0 <= i < |a| && CompareFirmwareNameText(AsText(a[i]))
      ensures (exists i :: 0 <= i < |a| && AsText(a[i]) == AllText) ==> found
    {
      var i := 0;
      while i < |a|
        invariant 0 <= i <= |a|
        invariant forall j :: 0 <= j < i ==> !CompareFirmwareNameText(AsText(a[j]))
      {
        if CompareFirmwareNameText(AsText(a[i])) {
          return true;
        }
        i := i + 1;
      }
      return false;
    }
  }

  /** Name matching: identity for constant strings, equality of the
      lower-cased texts for C strings. Every element answers to its own name
      in both overloads, and the case of a C string never matters. */
  lemma CompareNameMeaning(e: Element, c: ConstantString, t: string)
    ensures e.CompareName(c) <==> c.addr == e.name.addr
    ensures e.CompareNameText(t) <==> Lowered(e.name.text) == Lowered(t)
    ensures e.CompareName(e.name) && e.CompareNameText(e.name.text)
    ensures e.CompareNameText(t) <==> e.CompareNameText(Lowered(t))
  {
    EqualsIgnoreCaseMeansLoweredEqual(e.name.text, t);
    EqualsIgnoreCaseMeansLoweredEqual(e.name.text, Lowered(t));
    LoweredIdempotent(t);
  }

  /** The wildcard is accepted by every element, in both overloads; any
      other C string is accepted exactly when it equals the firmware name,
      case included. */
  lemma FirmwareWildcard(e: Element, t: string, c: ConstantString)
    ensures e.CompareFirmwareNameText(AllText)
    ensures c.text == AllText ==> e.CompareFirmwareName(c)
    ensures t != AllText ==> (e.CompareFirmwareNameText(t) <==> t == e.firmwareName.text)
    ensures c.text != AllText ==> (e.CompareFirmwareName(c) <==> c.addr == e.firmwareName.addr)
  {
  }

  /** A default-constructed element belongs to the empty firmware name: it
      accepts the empty string and the wildcard and nothing else. */
  lemma DefaultElementFirmware(e: Element, t: string)
    requires e.firmwareName == EmptyConstantString
    ensures e.CompareFirmwareNameText(t) <==> t == "" || t == AllText
  {
  }
}
