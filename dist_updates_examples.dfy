/** The fact's examples: a simulation with two packages to upgrade. */
module DistUpdatesExamples {
  import opened Wrappers
  import opened Strings
  import opened DistUpdates

  // The annotations are written in pieces: the verifier reads short literals character by character.
  const TuxracerOld := " [2015f-0+deb8u1]"
  const TuxracerCandidate := " (2015g-0+deb8u1" + " Debian:stable-updates [all])"
  const PlanetOld := " [13-1.1]"
  const PlanetCandidate := " (22-2~bpo8+1" + " Debian Backports:-backports [all])"

  const InstTuxracer := "Inst " + "extremetuxracer" + TuxracerOld + TuxracerCandidate
  const ConfTuxracer := "Conf " + "extremetuxracer" + TuxracerCandidate
  const InstPlanet := "Inst " + "planet.rb" + PlanetOld + PlanetCandidate
  const ConfPlanet := "Conf " + "planet.rb" + PlanetCandidate

  /** The `dist-upgrade` simulation's output, each line ending in a line break. */
  const Sample := Unlines([InstTuxracer, ConfTuxracer, InstPlanet, ConfPlanet])

  lemma TuxracerUnbroken()
    ensures '\n' !in TuxracerOld && '\n' !in TuxracerCandidate
  {
  }

  lemma PlanetUnbroken()
    ensures '\n' !in PlanetOld && '\n' !in PlanetCandidate
  {
  }

  lemma SampleLines()
    ensures Lines(Sample) == [InstTuxracer, ConfTuxracer, InstPlanet, ConfPlanet, ""]
  {
    TuxracerUnbroken();
    PlanetUnbroken();
    var ls := [InstTuxracer, ConfTuxracer, InstPlanet, ConfPlanet];
    assert forall i :: 0 <= i < |ls| ==> '\n' !in ls[i];
    LinesOfUnlines(ls);
  }

  lemma TuxracerName()
    ensures InstPackage(InstTuxracer) == Some("extremetuxracer")
  {
    InstPackageOf(' ', "extremetuxracer", TuxracerOld + TuxracerCandidate);
    assert InstTuxracer == "Inst" + [' '] + "extremetuxracer" + (TuxracerOld + TuxracerCandidate);
  }

  lemma PlanetName()
    ensures InstPackage(InstPlanet) == Some("planet.rb")
  {
    InstPackageOf(' ', "planet.rb", PlanetOld + PlanetCandidate);
    assert InstPlanet == "Inst" + [' '] + "planet.rb" + (PlanetOld + PlanetCandidate);
  }

  /** `Conf` lines and the empty remainder name no package. */
  lemma ConfLinesIgnored()
    ensures InstPackage(ConfTuxracer) == None && InstPackage(ConfPlanet) == None && InstPackage("") == None
  {
    assert ConfTuxracer[0] == 'C' && ConfPlanet[0] == 'C';
  }

  /** Two packages, each an `Inst` line followed by its `Conf` line, then the empty remainder. */
  lemma TwoPackages(inst1: string, conf1: string, inst2: string, conf2: string, n1: string, n2: string)
    requires InstPackage(inst1) == Some(n1) && InstPackage(conf1).None?
    requires InstPackage(inst2) == Some(n2) && InstPackage(conf2).None?
    ensures PackageNames([inst1, conf1, inst2, conf2, ""]) == [n1, n2]
  {
    var ls := [inst1, conf1, inst2, conf2, ""];
    assert ls[1..][1..] == [inst2, conf2, ""];
    assert ls[1..][1..][1..][1..] == [""];
    assert PackageNames([""]) == [];
    assert PackageNames([conf2, ""]) == [];
    assert PackageNames([inst2, conf2, ""]) == [n2];
    assert PackageNames(ls[1..]) == [n2];
  }

  /** The `Inst` names in order; the `Conf` lines and the upgrade run's output add nothing. */
  lemma SampleUpdates(upgradeOutput: string)
    ensures PackageDistUpdates(true, upgradeOutput, Sample) == Some(["extremetuxracer", "planet.rb"])
  {
    SampleLines();
    TuxracerName();
    PlanetName();
    ConfLinesIgnored();
    TwoPackages(InstTuxracer, ConfTuxracer, InstPlanet, ConfPlanet, "extremetuxracer", "planet.rb");
  }

  /** Without dist updates the fact has no value, whatever the simulations print. */
  lemma NoDistUpdates(upgradeOutput: string, distUpgradeOutput: string)
    ensures PackageDistUpdates(false, upgradeOutput, distUpgradeOutput) == None
  {
  }
}
