/**
 * Concrete runs of the search command over small device lists: what is
 * printed, bound, probed and reported.
 */
module Scenarios {
  import opened Wrappers
  import opened Platform
  import opened DeviceNames
  import opened Matching
  import opened Search

  /** A device that opens, whose filesystem reports the given label and has no UUID accessor. */
  function Labelled(name: string, volume: string): Device {
    Device(name, true, Some(FsInfo(Some(AccessorCall(ErrNone, Some(volume))), None)), false, {})
  }

  /** A device on which exactly the given full paths open, with no recognised filesystem. */
  function Holding(name: string, paths: set<string>): Device {
    Device(name, true, None, false, paths)
  }

  const Disks := [Labelled("hd0", "BOOT"), Labelled("hd1", "MYUSB"), Labelled("fd0", "FLOPPY")]

  const UsbLabel := Query("MYUSB", ByLabel, false)

  /** The verdicts of the label search on each disk. */
  lemma DiskVerdicts()
    ensures Judge(UsbLabel, Disks[0]) == Miss
    ensures Judge(UsbLabel, Disks[1]) == Hit
    ensures Judge(UsbLabel, Disks[2]) == Miss
  {
    assert !IsFloppyName("hd0") && !IsFloppyName("hd1");
  }

  /** Label search without -s or -n: the one match is printed; the floppy is probed too. */
  lemma PrintsLabelMatch(g: Globals)
    ensures Outcome(UsbLabel, None, Disks, g).output == g.output + [" hd1"]
    ensures Outcome(UsbLabel, None, Disks, g).probed == g.probed + ["hd0", "hd1", "fd0"]
    ensures Outcome(UsbLabel, None, Disks, g).env == g.env
    ensures Outcome(UsbLabel, None, Disks, g).errno == ErrNone
  {
    DiskVerdicts();
    RunCons(UsbLabel, Disks[2..], false);
    assert Disks[2..][1..] == [];
    RunCons(UsbLabel, Disks[1..], false);
    assert Disks[1..][1..] == Disks[2..];
    RunCons(UsbLabel, Disks, false);
    assert Run(UsbLabel, Disks, false) == Trace(["hd1"], ["hd0", "hd1", "fd0"], false);
    assert " " + "hd1" == " hd1";
    assert Announce(["hd1"]) == [" hd1"] by {
      assert Announce(["hd1"])[0] == " " + ["hd1"][0];
    }
  }

  /** Label search with a bare -s. */
  const BareSet := Flags(false, true, false, true, None, false)

  /**
   * The label search for MYUSB with -s and no variable name: root is bound to
   * hd1, nothing is printed, and nothing after hd1 is probed.
   */
  lemma BindsRootToLabelMatch(g: Globals)
    ensures Plan(BareSet, ["MYUSB"]).Success?
    ensures var job := Plan(BareSet, ["MYUSB"]).value;
      && Outcome(job.query, job.target, Disks, g).env == g.env["root" := "hd1"]
      && Outcome(job.query, job.target, Disks, g).output == g.output
      && Outcome(job.query, job.target, Disks, g).probed == g.probed + ["hd0", "hd1"]
  {
    assert Plan(BareSet, ["MYUSB"]) == Success(Job(UsbLabel, Some("root")));
    DiskVerdicts();
    RunCons(UsbLabel, Disks[1..], true);
    assert Disks[1..][0] == Disks[1];
    RunCons(UsbLabel, Disks, true);
    assert Run(UsbLabel, Disks, true) == Trace(["hd1"], ["hd0", "hd1"], false);
  }

  /** File search with -n: the floppy is never probed, and the disk holding the file is printed. */
  lemma SkipsFloppyInFileSearch(g: Globals)
    ensures var devs := [Holding("fd0", {"(fd0)/grub.cfg"}), Holding("hd0", {"(hd0)/grub.cfg"})];
      && Outcome(Query("/grub.cfg", ByFile, true), None, devs, g).output == g.output + [" hd0"]
      && Outcome(Query("/grub.cfg", ByFile, true), None, devs, g).probed == g.probed + ["hd0"]
  {
    var q := Query("/grub.cfg", ByFile, true);
    var devs := [Holding("fd0", {"(fd0)/grub.cfg"}), Holding("hd0", {"(hd0)/grub.cfg"})];
    assert IsFloppyName("fd0") && !IsFloppyName("hd0");
    assert DevicePath("hd0", "/grub.cfg") == "(hd0)/grub.cfg";
    assert Judge(q, devs[0]) == Skip && Judge(q, devs[1]) == Hit;
    RunCons(q, devs[1..], false);
    assert devs[1..][1..] == [];
    RunCons(q, devs, false);
    assert Run(q, devs, false) == Trace(["hd0"], ["hd0"], false);
    assert " " + "hd0" == " hd0";
    assert Announce(["hd0"]) == [" hd0"] by {
      assert Announce(["hd0"])[0] == " " + ["hd0"][0];
    }
  }

  /** UUID search on a filesystem without a UUID accessor: nothing matches and the command fails. */
  lemma ReportsMissingUuid(g: Globals)
    ensures Outcome(Query("ABCD-1234", ByUuid, false), None, [Labelled("hd0", "ABCD-1234")], g).errno == ErrFileNotFound
    ensures Outcome(Query("ABCD-1234", ByUuid, false), None, [Labelled("hd0", "ABCD-1234")], g).errmsg ==
      "no such device: ABCD-1234"
    ensures Outcome(Query("ABCD-1234", ByUuid, false), None, [Labelled("hd0", "ABCD-1234")], g).output == g.output
  {
    assert !IsFloppyName("hd0");
  }

  /** Without a key, and without a search type, the command is refused before any search. */
  lemma RefusesIncompleteCommands(f: Flags)
    ensures Plan(f, []) == Failure("no argument specified")
    ensures Plan(Flags(false, false, false, f.setVar, f.setArg, f.noFloppy), ["x"]) ==
      Failure("unspecified search type")
  {
  }
}
