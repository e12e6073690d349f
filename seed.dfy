/** The catalogue `seedTravelPackages` stores when the in-memory store is
    built: six packages, in the order of the source. */
module Seed {
  import opened Base
  import opened Schema

  /** The image address of an Unsplash photo at the size every seed package uses. */
  function UnsplashImage(photo: string): string
  {
    "https://images.unsplash.com/" + photo + "?ixlib=rb-1.2.1&auto=format&fit=crop&w=800&h=500&q=80"
  }

  /** The package list the constructor seeds. */
  function SeedPackages(): (r: seq<InsertTravelPackage>)
    ensures |r| == 6
  {
    seq(6, k requires 0 <= k < 6 => SeedPackage(k))
  }

  /** The `k`-th entry of the seed list, in the order of the source. */
  function SeedPackage(k: nat): InsertTravelPackage
    requires k < 6
  {
    match k
    case 0 =>
      InsertTravelPackage(
        "Weekend Culturale a Roma",
        Some("Un weekend alla scoperta della città eterna"),
        "Roma",
        Some(UnsplashImage("photo-1499678329028-101435549a4e")),
        Some("4.5"), Some(120), Some("Hotel Artemide 4★"), Some("Hotel"),
        Some("Volo A/R da Milano"), Some(3), Some(2),
        Some(["Visita guidata ai Musei Vaticani", "Tour gastronomico di Trastevere",
              "Biglietti salta-fila per il Colosseo"]),
        Some(650), Some(true),
        Some(["Storia e Arte", "Enogastronomia", "Vita Locale"]))
    case 1 =>
      InsertTravelPackage(
        "Relax e Cultura in Toscana",
        Some("Un soggiorno rilassante immersi nella campagna toscana"),
        "Toscana",
        Some(UnsplashImage("photo-1534445867742-43195f401b6c")),
        Some("4.0"), Some(98), Some("Agriturismo Il Poggio"), Some("Agriturismo"),
        Some("Auto a noleggio"), Some(5), Some(4),
        Some(["Degustazione vini a Montalcino", "Visita guidata di Siena",
              "Corso di cucina toscana"]),
        Some(780), Some(false),
        Some(["Enogastronomia", "Salute e Benessere", "Vita Locale"]))
    case 2 =>
      InsertTravelPackage(
        "Mare e Cultura in Costiera",
        Some("Un viaggio alla scoperta della costiera amalfitana"),
        "Costiera Amalfitana",
        Some(UnsplashImage("photo-1516483638261-f4dbaf036963")),
        Some("4.8"), Some(156), Some("Hotel Belvedere 4★"), Some("Hotel"),
        Some("Treno A/R da Roma"), Some(6), Some(5),
        Some(["Tour in barca di Capri", "Visita agli scavi di Pompei",
              "Lezione di cucina napoletana"]),
        Some(950), Some(false),
        Some(["Storia e Arte", "Enogastronomia", "Vita Locale"]))
    case 3 =>
      InsertTravelPackage(
        "Avventura nelle Dolomiti",
        Some("Un'esperienza indimenticabile immersi nella natura"),
        "Dolomiti",
        Some(UnsplashImage("photo-1503614472-8c93d56e92ce")),
        Some("4.7"), Some(89), Some("Mountain Lodge"), Some("Rifugio"),
        Some("Auto propria"), Some(4), Some(3),
        Some(["Escursione guidata sul Monte Cristallo", "Mountain bike nei sentieri alpini",
              "Corso base di arrampicata"]),
        Some(580), Some(false),
        Some(["Sport", "Salute e Benessere"]))
    case 4 =>
      InsertTravelPackage(
        "Benessere in Umbria",
        Some("Relax e natura nel cuore verde d'Italia"),
        "Umbria",
        Some(UnsplashImage("photo-1531816458010-fb7685eecbcb")),
        Some("4.6"), Some(102), Some("Borgo Spa Resort"), Some("Resort"),
        Some("Auto a noleggio"), Some(5), Some(4),
        Some(["Percorso benessere con massaggio", "Yoga all'alba tra gli ulivi",
              "Escursione nei borghi medievali"]),
        Some(870), Some(true),
        Some(["Salute e Benessere", "Vita Locale"]))
    case 5 =>
      InsertTravelPackage(
        "Food Tour in Emilia Romagna",
        Some("Un percorso gastronomico nella patria del gusto italiano"),
        "Emilia Romagna",
        Some(UnsplashImage("photo-1528795259021-d8c86e14354c")),
        Some("4.9"), Some(135), Some("Palazzo del Gusto"), Some("B&B"),
        Some("Treno A/R da Milano"), Some(4), Some(3),
        Some(["Visita a un caseificio di Parmigiano Reggiano", "Corso di pasta fresca fatta in casa",
              "Tour con degustazione in acetaia tradizionale"]),
        Some(720), Some(true),
        Some(["Enogastronomia", "Vita Locale"]))
  }
}
