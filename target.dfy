/**
 * TargetArchitecture: a target triple split on '-' into architecture,
 * vendor, operating system and environment, with defaults for the fields
 * a short triple leaves out, and the three classification predicates.
 */
module Target {
  import opened Strings

  datatype TargetArchitecture = TargetArchitecture(
    triple: string,
    arch: string,
    vendor: string,
    os: string,
    env: string)

  /**
   * parse_triple: total. The architecture is the text before the first '-';
   * vendor, os and env default to "unknown", "none" and "gnu"; fields after
   * the fourth are ignored.
   */
  function ParseTriple(triple: string): (t: TargetArchitecture)
    ensures t.triple == triple
    ensures t.arch <= triple
    ensures '-' !in t.arch && '-' !in t.vendor && '-' !in t.os && '-' !in t.env
    ensures t.arch == triple <==> '-' !in triple
    ensures '-' !in triple ==> t.vendor == "unknown" && t.os == "none" && t.env == "gnu"
  {
    var parts := Split(triple, '-');
    TargetArchitecture(
      triple,
      parts[0],
      if |parts| > 1 then parts[1] else "unknown",
      if |parts| > 2 then parts[2] else "none",
      if |parts| > 3 then parts[3] else "gnu")
  }

  predicate IsBareMetal(t: TargetArchitecture)
  {
    t.os in ["elf", "none", "eabi"]
  }

  predicate IsLinux(t: TargetArchitecture)
  {
    t.os == "linux"
  }

  predicate IsWindows(t: TargetArchitecture)
  {
    t.os == "mingw32" || t.env == "mingw32"
  }

  /** The field at position `i` of a split triple, or the default when the triple is shorter. */
  function FieldOr(parts: seq<string>, i: nat, default: string): string
  {
    if |parts| > i then parts[i] else default
  }

  /**
   * Parsing a triple assembled from dash-free fields recovers the fields:
   * the first four in order, the defaults for missing ones, nothing from
   * a fifth or later field.
   */
  lemma ParseFields(parts: seq<string>)
    requires |parts| >= 1
    requires forall i :: 0 <= i < |parts| ==> '-' !in parts[i]
    ensures ParseTriple(Join(parts, "-")) == TargetArchitecture(
      Join(parts, "-"),
      parts[0],
      FieldOr(parts, 1, "unknown"),
      FieldOr(parts, 2, "none"),
      FieldOr(parts, 3, "gnu"))
  {
    SplitJoin(parts, '-');
  }

  /** A two-field triple such as "x86_64-elf" takes its second field as the vendor, not the os. */
  lemma ParseTwoFields(arch: string, second: string)
    requires '-' !in arch && '-' !in second
    ensures ParseTriple(arch + "-" + second) ==
      TargetArchitecture(arch + "-" + second, arch, second, "none", "gnu")
    ensures IsBareMetal(ParseTriple(arch + "-" + second))
  {
    ParseFields([arch, second]);
  }

  /** The classification predicates agree with each other: bare metal and Linux exclude each other. */
  lemma ClassificationConsistent(t: TargetArchitecture)
    ensures !(IsBareMetal(t) && IsLinux(t))
    ensures IsLinux(t) ==> t.os !in ["elf", "none", "eabi", "mingw32"]
    ensures IsWindows(t) && !IsBareMetal(t) && !IsLinux(t) <==>
      (t.os == "mingw32" || (t.env == "mingw32" && t.os !in ["elf", "none", "eabi", "linux"]))
  {
  }

  /** "x86_64-elf": vendor "elf", os defaulted to "none", hence bare metal. */
  lemma ScenarioBareMetalElf()
    ensures ParseTriple("x86_64-elf") == TargetArchitecture("x86_64-elf", "x86_64", "elf", "none", "gnu")
    ensures IsBareMetal(ParseTriple("x86_64-elf"))
  {
    assert "x86_64" + "-" + "elf" == "x86_64-elf";
    ParseTwoFields("x86_64", "elf");
  }

  /** "riscv64-unknown-elf": a three-field triple, os "elf". */
  lemma ScenarioRiscv()
    ensures ParseTriple("riscv64-unknown-elf") ==
      TargetArchitecture("riscv64-unknown-elf", "riscv64", "unknown", "elf", "gnu")
    ensures IsBareMetal(ParseTriple("riscv64-unknown-elf"))
  {
    var parts := ["riscv64", "unknown", "elf"];
    assert Join(parts, "-") == "riscv64-unknown-elf" by {
      assert Join(parts[1..], "-") == "unknown-elf" by {
        assert parts[1..][1..] == ["elf"];
      }
    }
    ParseFields(parts);
  }

  /** "x86_64-linux-gnu": the second field is the vendor, so the os is "gnu" and the triple is not Linux. */
  lemma ScenarioLinuxGnu()
    ensures ParseTriple("x86_64-linux-gnu").vendor == "linux"
    ensures ParseTriple("x86_64-linux-gnu").os == "gnu"
    ensures !IsLinux(ParseTriple("x86_64-linux-gnu"))
  {
    var parts := ["x86_64", "linux", "gnu"];
    assert Join(parts, "-") == "x86_64-linux-gnu" by {
      assert Join(parts[1..], "-") == "linux-gnu" by {
        assert parts[1..][1..] == ["gnu"];
      }
    }
    ParseFields(parts);
  }
}
