/**
 * The two translation tables of the client-side translator, French and
 * English. The tables are flat: each key is a whole dotted name such as
 * "nav.home" and maps directly to its text. Each table is written here
 * section by section, in the source's order, and assembled into a map.
 */
module Translations {

  /** Both tables list the same keys in the same order; every key has a dot; no text is empty. */
  predicate SectionsAgree(fr: seq<(string, string)>, en: seq<(string, string)>) {
    && |fr| == |en|
    && (forall i | 0 <= i < |fr| :: fr[i].0 == en[i].0 && '.' in fr[i].0 && fr[i].1 != "" && en[i].1 != "")
  }

  lemma AgreeConcat(fr1: seq<(string, string)>, en1: seq<(string, string)>,
                    fr2: seq<(string, string)>, en2: seq<(string, string)>)
    requires SectionsAgree(fr1, en1) && SectionsAgree(fr2, en2)
    ensures SectionsAgree(fr1 + fr2, en1 + en2)
  {
    var fr, en := fr1 + fr2, en1 + en2;
    forall i | 0 <= i < |fr| ensures fr[i].0 == en[i].0 && '.' in fr[i].0 && fr[i].1 != "" && en[i].1 != "" {
      if i < |fr1| {
        assert fr[i] == fr1[i] && en[i] == en1[i];
      } else {
        assert fr[i] == fr2[i - |fr1|] && en[i] == en2[i - |fr1|];
      }
    }
  }

  /** An object literal: each entry sets its key, a later entry overriding an earlier one. */
  function TableOf(entries: seq<(string, string)>): (t: map<string, string>)
    ensures forall k :: k in t <==> exists i | 0 <= i < |entries| :: entries[i].0 == k
    ensures forall k | k in t :: exists i | 0 <= i < |entries| :: entries[i] == (k, t[k])
  {
    if entries == [] then map[]
    else
      var front := TableOf(entries[..|entries| - 1]);
      var last := entries[|entries| - 1];
      assert forall i | 0 <= i < |entries| - 1 :: entries[..|entries| - 1][i] == entries[i];
      front[last.0 := last.1]
  }

  // Navigation: i18n.js lines 12-16 (fr) and 185-189 (en)
  const FrNav: seq<(string, string)> := [
    ("nav.home", "Accueil"),
    ("nav.dashboard", "Tableau de bord"),
    ("nav.volunteers", "Volontaires"),
    ("nav.analytics", "Analyses"),
    ("nav.about", "À propos")
  ]

  const EnNav: seq<(string, string)> := [
    ("nav.home", "Home"),
    ("nav.dashboard", "Dashboard"),
    ("nav.volunteers", "Volunteers"),
    ("nav.analytics", "Analytics"),
    ("nav.about", "About")
  ]

  lemma NavSectionsAgree()
    ensures SectionsAgree(FrNav, EnNav)
  {
  }

  // Hero Section: i18n.js lines 19-24 (fr) and 192-197 (en)
  const FrHero: seq<(string, string)> := [
    ("hero.title", "Calcul Distribué"),
    ("hero.title.highlight", "Volontaire"),
    ("hero.description", "Exploitez la puissance" + " collective des" + " volontaires pour vos" + " calculs intensifs." + " Économisez jusqu'à"),
    ("hero.savings", "d'économies"),
    ("hero.cta.dashboard", "Voir le Tableau de Bord"),
    ("hero.cta.learn", "En Savoir Plus")
  ]

  const EnHero: seq<(string, string)> := [
    ("hero.title", "Volunteer Distributed"),
    ("hero.title.highlight", "Computing"),
    ("hero.description", "Leverage the collective" + " power of volunteers for" + " your intensive" + " computations. Save up" + " to"),
    ("hero.savings", "in savings"),
    ("hero.cta.dashboard", "View Dashboard"),
    ("hero.cta.learn", "Learn More")
  ]

  lemma HeroSectionsAgree()
    ensures SectionsAgree(FrHero, EnHero)
  {
  }

  // Stats: i18n.js lines 27-30 (fr) and 200-203 (en)
  const FrStats: seq<(string, string)> := [
    ("stats.volunteers", "Volontaires Actifs"),
    ("stats.tasks", "Tâches Traitées"),
    ("stats.savings", "Économies Réalisées"),
    ("stats.cpu", "Utilisation CPU")
  ]

  const EnStats: seq<(string, string)> := [
    ("stats.volunteers", "Active Volunteers"),
    ("stats.tasks", "Tasks Processed"),
    ("stats.savings", "Savings Achieved"),
    ("stats.cpu", "CPU Usage")
  ]

  lemma StatsSectionsAgree()
    ensures SectionsAgree(FrStats, EnStats)
  {
  }

  // Dashboard: i18n.js lines 33-39 (fr) and 206-212 (en)
  const FrDashboardA: seq<(string, string)> := [
    ("dashboard.title", "Tableau de Bord"),
    ("dashboard.subtitle", "Vue d'ensemble de votre" + " système de calcul" + " distribué"),
    ("dashboard.lastUpdate", "Dernière mise à jour:"),
    ("dashboard.refresh", "Actualiser"),
    ("dashboard.activeVolunteers", "Volontaires Actifs"),
    ("dashboard.completedTasks", "Tâches Complétées"),
    ("dashboard.cpuUsage", "Utilisation CPU")
  ]

  const EnDashboardA: seq<(string, string)> := [
    ("dashboard.title", "Dashboard"),
    ("dashboard.subtitle", "Overview of your" + " distributed computing" + " system"),
    ("dashboard.lastUpdate", "Last update:"),
    ("dashboard.refresh", "Refresh"),
    ("dashboard.activeVolunteers", "Active Volunteers"),
    ("dashboard.completedTasks", "Completed Tasks"),
    ("dashboard.cpuUsage", "CPU Usage")
  ]

  lemma DashboardASectionsAgree()
    ensures SectionsAgree(FrDashboardA, EnDashboardA)
  {
  }

  // Dashboard: i18n.js lines 40-45 (fr) and 213-218 (en)
  const FrDashboardB: seq<(string, string)> := [
    ("dashboard.costSavings", "Économies"),
    ("dashboard.sinceYesterday", "depuis hier"),
    ("dashboard.thisMonth", "ce mois"),
    ("dashboard.performance", "Performance Système"),
    ("dashboard.tasksDistribution", "Distribution des Tâches"),
    ("dashboard.recentTasks", "Tâches Récentes")
  ]

  const EnDashboardB: seq<(string, string)> := [
    ("dashboard.costSavings", "Cost Savings"),
    ("dashboard.sinceYesterday", "since yesterday"),
    ("dashboard.thisMonth", "this month"),
    ("dashboard.performance", "System Performance"),
    ("dashboard.tasksDistribution", "Tasks Distribution"),
    ("dashboard.recentTasks", "Recent Tasks")
  ]

  lemma DashboardBSectionsAgree()
    ensures SectionsAgree(FrDashboardB, EnDashboardB)
  {
  }

  // Volunteers: i18n.js lines 48-54 (fr) and 221-227 (en)
  const FrVolunteersA: seq<(string, string)> := [
    ("volunteers.title", "Réseau de Volontaires"),
    ("volunteers.subtitle", "Gérez et surveillez les" + " performances de votre" + " réseau de calcul" + " distribué"),
    ("volunteers.total", "Total Volontaires"),
    ("volunteers.active", "Actifs"),
    ("volunteers.avgPerformance", "Performance Moyenne"),
    ("volunteers.totalTime", "Temps Total"),
    ("volunteers.search", "Rechercher un" + " volontaire...")
  ]

  const EnVolunteersA: seq<(string, string)> := [
    ("volunteers.title", "Volunteer Network"),
    ("volunteers.subtitle", "Manage and monitor your" + " distributed computing" + " network performance"),
    ("volunteers.total", "Total Volunteers"),
    ("volunteers.active", "Active"),
    ("volunteers.avgPerformance", "Average Performance"),
    ("volunteers.totalTime", "Total Time"),
    ("volunteers.search", "Search volunteer...")
  ]

  lemma VolunteersASectionsAgree()
    ensures SectionsAgree(FrVolunteersA, EnVolunteersA)
  {
  }

  // Volunteers: i18n.js lines 55-61 (fr) and 228-234 (en)
  const FrVolunteersB: seq<(string, string)> := [
    ("volunteers.allStatus", "Tous les statuts"),
    ("volunteers.status.active", "Actif"),
    ("volunteers.status.busy", "Occupé"),
    ("volunteers.status.inactive", "Inactif"),
    ("volunteers.details", "Détails"),
    ("volunteers.showing", "Affichage de"),
    ("volunteers.to", "à")
  ]

  const EnVolunteersB: seq<(string, string)> := [
    ("volunteers.allStatus", "All statuses"),
    ("volunteers.status.active", "Active"),
    ("volunteers.status.busy", "Busy"),
    ("volunteers.status.inactive", "Inactive"),
    ("volunteers.details", "Details"),
    ("volunteers.showing", "Showing"),
    ("volunteers.to", "to")
  ]

  lemma VolunteersBSectionsAgree()
    ensures SectionsAgree(FrVolunteersB, EnVolunteersB)
  {
  }

  // Volunteers: i18n.js lines 62-68 (fr) and 235-241 (en)
  const FrVolunteersC: seq<(string, string)> := [
    ("volunteers.of", "sur"),
    ("volunteers.previous", "Précédent"),
    ("volunteers.next", "Suivant"),
    ("volunteers.resources", "Ressources"),
    ("volunteers.performance", "Performance"),
    ("volunteers.tasks", "Tâches"),
    ("volunteers.cores", "cores")
  ]

  const EnVolunteersC: seq<(string, string)> := [
    ("volunteers.of", "of"),
    ("volunteers.previous", "Previous"),
    ("volunteers.next", "Next"),
    ("volunteers.resources", "Resources"),
    ("volunteers.performance", "Performance"),
    ("volunteers.tasks", "Tasks"),
    ("volunteers.cores", "cores")
  ]

  lemma VolunteersCSectionsAgree()
    ensures SectionsAgree(FrVolunteersC, EnVolunteersC)
  {
  }

  // Analytics: i18n.js lines 71-77 (fr) and 244-250 (en)
  const FrAnalyticsA: seq<(string, string)> := [
    ("analytics.title", "Analyses et Métriques"),
    ("analytics.subtitle", "Analysez les" + " performances et les" + " économies de votre" + " système"),
    ("analytics.costSavings", "Économies de Coûts"),
    ("analytics.totalSavings", "Économies Totales"),
    ("analytics.savings", "d'économies"),
    ("analytics.costPerTask", "Coût par Tâche"),
    ("analytics.traditional", "traditionnel")
  ]

  const EnAnalyticsA: seq<(string, string)> := [
    ("analytics.title", "Analytics and Metrics"),
    ("analytics.subtitle", "Analyze your system" + " performance and savings"),
    ("analytics.costSavings", "Cost Savings"),
    ("analytics.totalSavings", "Total Savings"),
    ("analytics.savings", "in savings"),
    ("analytics.costPerTask", "Cost per Task"),
    ("analytics.traditional", "traditional")
  ]

  lemma AnalyticsASectionsAgree()
    ensures SectionsAgree(FrAnalyticsA, EnAnalyticsA)
  {
  }

  // Analytics: i18n.js lines 78-84 (fr) and 251-257 (en)
  const FrAnalyticsB: seq<(string, string)> := [
    ("analytics.tasksProcessed", "Tâches Traitées"),
    ("analytics.viaVolunteers", "via volontaires"),
    ("analytics.monthlyROI", "ROI Mensuel"),
    ("analytics.return", "Retour"),
    ("analytics.onInvestment", "sur investissement"),
    ("analytics.performanceAnalytics", "Analyses de Performance"),
    ("analytics.performanceHistory", "Historique des" + " Performances")
  ]

  const EnAnalyticsB: seq<(string, string)> := [
    ("analytics.tasksProcessed", "Tasks Processed"),
    ("analytics.viaVolunteers", "via volunteers"),
    ("analytics.monthlyROI", "Monthly ROI"),
    ("analytics.return", "Return"),
    ("analytics.onInvestment", "on investment"),
    ("analytics.performanceAnalytics", "Performance Analytics"),
    ("analytics.performanceHistory", "Performance History")
  ]

  lemma AnalyticsBSectionsAgree()
    ensures SectionsAgree(FrAnalyticsB, EnAnalyticsB)
  {
  }

  // Analytics: i18n.js lines 85-91 (fr) and 258-264 (en)
  const FrAnalyticsC: seq<(string, string)> := [
    ("analytics.performanceDistribution", "Distribution des" + " Performances"),
    ("analytics.costComparison", "Comparaison des Coûts"),
    ("analytics.topVolunteers", "Top Volontaires"),
    ("analytics.globalStats", "Statistiques Globales"),
    ("analytics.resourceUtilization", "Utilisation des" + " Ressources"),
    ("analytics.globalCPU", "CPU Global"),
    ("analytics.globalMemory", "Mémoire Globale")
  ]

  const EnAnalyticsC: seq<(string, string)> := [
    ("analytics.performanceDistribution", "Performance Distribution"),
    ("analytics.costComparison", "Cost Comparison"),
    ("analytics.topVolunteers", "Top Volunteers"),
    ("analytics.globalStats", "Global Statistics"),
    ("analytics.resourceUtilization", "Resource Utilization"),
    ("analytics.globalCPU", "Global CPU"),
    ("analytics.globalMemory", "Global Memory")
  ]

  lemma AnalyticsCSectionsAgree()
    ensures SectionsAgree(FrAnalyticsC, EnAnalyticsC)
  {
  }

  // Analytics: i18n.js lines 92-97 (fr) and 265-270 (en)
  const FrAnalyticsD: seq<(string, string)> := [
    ("analytics.network", "Réseau"),
    ("analytics.avgUsage", "Utilisation moyenne"),
    ("analytics.avgThroughput", "Débit moyen"),
    ("analytics.last24h", "Dernières 24h"),
    ("analytics.last7days", "7 derniers jours"),
    ("analytics.last30days", "30 derniers jours")
  ]

  const EnAnalyticsD: seq<(string, string)> := [
    ("analytics.network", "Network"),
    ("analytics.avgUsage", "Average usage"),
    ("analytics.avgThroughput", "Average throughput"),
    ("analytics.last24h", "Last 24h"),
    ("analytics.last7days", "Last 7 days"),
    ("analytics.last30days", "Last 30 days")
  ]

  lemma AnalyticsDSectionsAgree()
    ensures SectionsAgree(FrAnalyticsD, EnAnalyticsD)
  {
  }

  // About: i18n.js lines 100-107 (fr) and 273-280 (en)
  const FrAboutA: seq<(string, string)> := [
    ("about.title", "À Propos de VCUY1"),
    ("about.description", "Un système" + " révolutionnaire de" + " calcul distribué" + " volontaire développé à" + " l'Université de Yaoundé" + " I"),
    ("about.mission", "Notre Mission"),
    ("about.missionDesc", "Rendre le calcul haute" + " performance accessible" + " à tous en exploitant la" + " puissance collective" + " des volontaires"),
    ("about.accessibility", "Accessibilité"),
    ("about.accessibility.desc", "Démocratiser l'accès aux" + " ressources de calcul" + " pour les chercheurs," + " étudiants et" + " entreprises"),
    ("about.sustainability", "Durabilité"),
    ("about.sustainability.desc", "Optimiser l'utilisation" + " des ressources" + " existantes pour réduire" + " l'empreinte carbone")
  ]

  const EnAboutA: seq<(string, string)> := [
    ("about.title", "About VCUY1"),
    ("about.description", "A revolutionary" + " volunteer distributed" + " computing system" + " developed at the" + " University of Yaoundé I"),
    ("about.mission", "Our Mission"),
    ("about.missionDesc", "Make high-performance" + " computing accessible to" + " all by leveraging the" + " collective power of" + " volunteers"),
    ("about.accessibility", "Accessibility"),
    ("about.accessibility.desc", "Democratize access to" + " computing resources for" + " researchers, students" + " and businesses"),
    ("about.sustainability", "Sustainability"),
    ("about.sustainability.desc", "Optimize use of existing" + " resources to reduce" + " carbon footprint")
  ]

  lemma AboutASectionsAgree()
    ensures SectionsAgree(FrAboutA, EnAboutA)
  {
  }

  // About: i18n.js lines 108-115 (fr) and 281-288 (en)
  const FrAboutB: seq<(string, string)> := [
    ("about.collaboration", "Collaboration"),
    ("about.collaboration.desc", "Créer une communauté" + " mondiale de" + " contributeurs unis par" + " la passion de la" + " science"),
    ("about.technology", "Architecture Technique"),
    ("about.technology.desc", "VCUY1 est entièrement" + " développé en Python" + " pour garantir une" + " intégration fluide"),
    ("about.server", "Serveur Central"),
    ("about.server.desc", "Architecture pub/sub" + " avec Redis et MongoDB" + " pour la gestion des" + " workflows"),
    ("about.client", "Application Client"),
    ("about.client.desc", "Interface Python" + " intuitive pour la" + " soumission et le suivi" + " des calculs")
  ]

  const EnAboutB: seq<(string, string)> := [
    ("about.collaboration", "Collaboration"),
    ("about.collaboration.desc", "Create a global" + " community of" + " contributors united by" + " passion for science"),
    ("about.technology", "Technical Architecture"),
    ("about.technology.desc", "VCUY1 is entirely" + " developed in Python to" + " ensure smooth" + " integration"),
    ("about.server", "Central Server"),
    ("about.server.desc", "Pub/sub architecture" + " with Redis and MongoDB" + " for workflow management"),
    ("about.client", "Client Application"),
    ("about.client.desc", "Intuitive Python" + " interface for" + " computation submission" + " and tracking")
  ]

  lemma AboutBSectionsAgree()
    ensures SectionsAgree(FrAboutB, EnAboutB)
  {
  }

  // About: i18n.js lines 116-123 (fr) and 289-296 (en)
  const FrAboutC: seq<(string, string)> := [
    ("about.docker", "Conteneurisation Docker"),
    ("about.docker.desc", "Isolation complète et" + " sécurité maximale pour" + " l'exécution des tâches"),
    ("about.university", "Université de Yaoundé I"),
    ("about.university.desc", "VCUY1 est né de la" + " recherche académique" + " menée à l'Université de" + " Yaoundé I"),
    ("about.founded", "Fondée en"),
    ("about.students", "Étudiants"),
    ("about.benefits", "Avantages du Système"),
    ("about.benefits.desc", "VCUY1 offre des" + " avantages significatifs" + " par rapport aux" + " solutions" + " traditionnelles")
  ]

  const EnAboutC: seq<(string, string)> := [
    ("about.docker", "Docker Containerization"),
    ("about.docker.desc", "Complete isolation and" + " maximum security for" + " task execution"),
    ("about.university", "University of Yaoundé I"),
    ("about.university.desc", "VCUY1 was born from" + " academic research" + " conducted at the" + " University of Yaoundé I"),
    ("about.founded", "Founded in"),
    ("about.students", "Students"),
    ("about.benefits", "System Benefits"),
    ("about.benefits.desc", "VCUY1 offers significant" + " advantages over" + " traditional solutions")
  ]

  lemma AboutCSectionsAgree()
    ensures SectionsAgree(FrAboutC, EnAboutC)
  {
  }

  // About: i18n.js lines 124-131 (fr) and 297-304 (en)
  const FrAboutD: seq<(string, string)> := [
    ("about.costReduction", "Réduction des Coûts"),
    ("about.costReduction.desc", "d'économies par rapport" + " aux solutions cloud" + " traditionnelles"),
    ("about.security", "Sécurité"),
    ("about.security.desc", "isolation grâce à la" + " conteneurisation Docker"),
    ("about.performance", "Performance"),
    ("about.performance.desc", "surveillance et" + " optimisation en temps" + " réel"),
    ("about.global", "Global"),
    ("about.global.desc", "réseau de volontaires" + " dans le monde entier")
  ]

  const EnAboutD: seq<(string, string)> := [
    ("about.costReduction", "Cost Reduction"),
    ("about.costReduction.desc", "savings compared to" + " traditional cloud" + " solutions"),
    ("about.security", "Security"),
    ("about.security.desc", "isolation through Docker" + " containerization"),
    ("about.performance", "Performance"),
    ("about.performance.desc", "real-time monitoring and" + " optimization"),
    ("about.global", "Global"),
    ("about.global.desc", "volunteer network" + " worldwide")
  ]

  lemma AboutDSectionsAgree()
    ensures SectionsAgree(FrAboutD, EnAboutD)
  {
  }

  // About: i18n.js lines 132-139 (fr) and 305-312 (en)
  const FrAboutE: seq<(string, string)> := [
    ("about.team", "Équipe de Développement"),
    ("about.team.desc", "Une équipe passionnée de" + " chercheurs et" + " d'ingénieurs"),
    ("about.research", "Équipe de Recherche"),
    ("about.research.desc", "Chercheurs spécialisés" + " en calcul distribué et" + " systèmes parallèles"),
    ("about.developers", "Développeurs"),
    ("about.developers.desc", "Ingénieurs logiciels" + " experts en Python," + " Docker et architectures" + " distribuées"),
    ("about.community", "Communauté"),
    ("about.community.desc", "Réseau mondial de" + " volontaires et" + " contributeurs" + " passionnés")
  ]

  const EnAboutE: seq<(string, string)> := [
    ("about.team", "Development Team"),
    ("about.team.desc", "A passionate team of" + " researchers and" + " engineers"),
    ("about.research", "Research Team"),
    ("about.research.desc", "Researchers specialized" + " in distributed" + " computing and parallel" + " systems"),
    ("about.developers", "Developers"),
    ("about.developers.desc", "Software engineers" + " expert in Python," + " Docker and distributed" + " architectures"),
    ("about.community", "Community"),
    ("about.community.desc", "Global network of" + " passionate volunteers" + " and contributors")
  ]

  lemma AboutESectionsAgree()
    ensures SectionsAgree(FrAboutE, EnAboutE)
  {
  }

  // About: i18n.js lines 140-147 (fr) and 313-320 (en)
  const FrAboutF: seq<(string, string)> := [
    ("about.contact", "Contact"),
    ("about.location", "Localisation"),
    ("about.opensource", "Open Source"),
    ("about.contribute", "Contribuez sur GitHub"),
    ("about.joinUs", "Rejoignez-nous"),
    ("about.joinUs.desc", "Que vous soyez" + " chercheur, développeur" + " ou simplement passionné" + " de technologie"),
    ("about.discover", "Découvrir le Système"),
    ("about.becomeVolunteer", "Devenir Volontaire")
  ]

  const EnAboutF: seq<(string, string)> := [
    ("about.contact", "Contact"),
    ("about.location", "Location"),
    ("about.opensource", "Open Source"),
    ("about.contribute", "Contribute on GitHub"),
    ("about.joinUs", "Join Us"),
    ("about.joinUs.desc", "Whether you are a" + " researcher, developer" + " or simply passionate" + " about technology"),
    ("about.discover", "Discover the System"),
    ("about.becomeVolunteer", "Become a Volunteer")
  ]

  lemma AboutFSectionsAgree()
    ensures SectionsAgree(FrAboutF, EnAboutF)
  {
  }

  // Common: i18n.js lines 150-155 (fr) and 323-328 (en)
  const FrCommonA: seq<(string, string)> := [
    ("common.loading", "Chargement..."),
    ("common.error", "Erreur"),
    ("common.success", "Succès"),
    ("common.close", "Fermer"),
    ("common.cancel", "Annuler"),
    ("common.confirm", "Confirmer")
  ]

  const EnCommonA: seq<(string, string)> := [
    ("common.loading", "Loading..."),
    ("common.error", "Error"),
    ("common.success", "Success"),
    ("common.close", "Close"),
    ("common.cancel", "Cancel"),
    ("common.confirm", "Confirm")
  ]

  lemma CommonASectionsAgree()
    ensures SectionsAgree(FrCommonA, EnCommonA)
  {
  }

  // Common: i18n.js lines 156-161 (fr) and 329-334 (en)
  const FrCommonB: seq<(string, string)> := [
    ("common.save", "Enregistrer"),
    ("common.delete", "Supprimer"),
    ("common.edit", "Modifier"),
    ("common.view", "Voir"),
    ("common.download", "Télécharger"),
    ("common.upload", "Téléverser")
  ]

  const EnCommonB: seq<(string, string)> := [
    ("common.save", "Save"),
    ("common.delete", "Delete"),
    ("common.edit", "Edit"),
    ("common.view", "View"),
    ("common.download", "Download"),
    ("common.upload", "Upload")
  ]

  lemma CommonBSectionsAgree()
    ensures SectionsAgree(FrCommonB, EnCommonB)
  {
  }

  // Task Status: i18n.js lines 164-167 (fr) and 337-340 (en)
  const FrTaskStatus: seq<(string, string)> := [
    ("task.status.completed", "Complétée"),
    ("task.status.running", "En cours"),
    ("task.status.pending", "En attente"),
    ("task.status.failed", "Échouée")
  ]

  const EnTaskStatus: seq<(string, string)> := [
    ("task.status.completed", "Completed"),
    ("task.status.running", "Running"),
    ("task.status.pending", "Pending"),
    ("task.status.failed", "Failed")
  ]

  lemma TaskStatusSectionsAgree()
    ensures SectionsAgree(FrTaskStatus, EnTaskStatus)
  {
  }

  // Time: i18n.js lines 170-173 (fr) and 343-346 (en)
  const FrTime: seq<(string, string)> := [
    ("time.hours", "heures"),
    ("time.minutes", "minutes"),
    ("time.seconds", "secondes"),
    ("time.days", "jours")
  ]

  const EnTime: seq<(string, string)> := [
    ("time.hours", "hours"),
    ("time.minutes", "minutes"),
    ("time.seconds", "seconds"),
    ("time.days", "days")
  ]

  lemma TimeSectionsAgree()
    ensures SectionsAgree(FrTime, EnTime)
  {
  }

  // Footer: i18n.js lines 176-181 (fr) and 349-354 (en)
  const FrFooter: seq<(string, string)> := [
    ("footer.rights", "Tous droits réservés"),
    ("footer.navigation", "Navigation"),
    ("footer.resources", "Ressources"),
    ("footer.documentation", "Documentation"),
    ("footer.api", "API"),
    ("footer.support", "Support")
  ]

  const EnFooter: seq<(string, string)> := [
    ("footer.rights", "All rights reserved"),
    ("footer.navigation", "Navigation"),
    ("footer.resources", "Resources"),
    ("footer.documentation", "Documentation"),
    ("footer.api", "API"),
    ("footer.support", "Support")
  ]

  lemma FooterSectionsAgree()
    ensures SectionsAgree(FrFooter, EnFooter)
  {
  }

  /** The entries of consecutive sections, in order. */
  function Flatten(sections: seq<seq<(string, string)>>): seq<(string, string)> {
    if sections == [] then [] else Flatten(sections[..|sections| - 1]) + sections[|sections| - 1]
  }

  /** Section lists that agree section by section give agreeing entry lists. */
  lemma {:induction false} FlattenAgree(frs: seq<seq<(string, string)>>, ens: seq<seq<(string, string)>>)
    requires |frs| == |ens|
    requires forall i | 0 <= i < |frs| :: SectionsAgree(frs[i], ens[i])
    ensures SectionsAgree(Flatten(frs), Flatten(ens))
  {
    if frs != [] {
      var n := |frs| - 1;
      FlattenAgree(frs[..n], ens[..n]);
      AgreeConcat(Flatten(frs[..n]), Flatten(ens[..n]), frs[n], ens[n]);
    }
  }

  const FrSections: seq<seq<(string, string)>> := [FrNav, FrHero, FrStats, FrDashboardA, FrDashboardB, FrVolunteersA, FrVolunteersB, FrVolunteersC, FrAnalyticsA, FrAnalyticsB, FrAnalyticsC, FrAnalyticsD, FrAboutA, FrAboutB, FrAboutC, FrAboutD, FrAboutE, FrAboutF, FrCommonA, FrCommonB, FrTaskStatus, FrTime, FrFooter]

  const EnSections: seq<seq<(string, string)>> := [EnNav, EnHero, EnStats, EnDashboardA, EnDashboardB, EnVolunteersA, EnVolunteersB, EnVolunteersC, EnAnalyticsA, EnAnalyticsB, EnAnalyticsC, EnAnalyticsD, EnAboutA, EnAboutB, EnAboutC, EnAboutD, EnAboutE, EnAboutF, EnCommonA, EnCommonB, EnTaskStatus, EnTime, EnFooter]

  const FrEntries: seq<(string, string)> := Flatten(FrSections)

  const EnEntries: seq<(string, string)> := Flatten(EnSections)

  /** `translations.fr`. */
  const FrTable: map<string, string> := TableOf(FrEntries)

  /** `translations.en`. */
  const EnTable: map<string, string> := TableOf(EnEntries)

  /** The whole French and English entry lists agree. */
  lemma AllSectionsAgree()
    ensures SectionsAgree(FrEntries, EnEntries)
  {
    NavSectionsAgree();
    HeroSectionsAgree();
    StatsSectionsAgree();
    DashboardASectionsAgree();
    DashboardBSectionsAgree();
    VolunteersASectionsAgree();
    VolunteersBSectionsAgree();
    VolunteersCSectionsAgree();
    AnalyticsASectionsAgree();
    AnalyticsBSectionsAgree();
    AnalyticsCSectionsAgree();
    AnalyticsDSectionsAgree();
    AboutASectionsAgree();
    AboutBSectionsAgree();
    AboutCSectionsAgree();
    AboutDSectionsAgree();
    AboutESectionsAgree();
    AboutFSectionsAgree();
    CommonASectionsAgree();
    CommonBSectionsAgree();
    TaskStatusSectionsAgree();
    TimeSectionsAgree();
    FooterSectionsAgree();
    FlattenAgree(FrSections, EnSections);
  }

  /** Tables built from agreeing entry lists share their keys, all dotted, with non-empty texts. */
  lemma AgreeingTables(fr: seq<(string, string)>, en: seq<(string, string)>)
    requires SectionsAgree(fr, en)
    ensures TableOf(fr).Keys == TableOf(en).Keys
    ensures forall k | k in TableOf(fr) :: '.' in k && TableOf(fr)[k] != "" && TableOf(en)[k] != ""
  {
    var tf, te := TableOf(fr), TableOf(en);
    forall k | k in tf ensures k in te {
      var i :| 0 <= i < |fr| && fr[i].0 == k;
      assert en[i].0 == k;
    }
    forall k | k in te ensures k in tf {
      var i :| 0 <= i < |en| && en[i].0 == k;
      assert fr[i].0 == k;
    }
    forall k | k in tf ensures '.' in k && tf[k] != "" && te[k] != "" {
      var i :| 0 <= i < |fr| && fr[i] == (k, tf[k]);
      var j :| 0 <= j < |en| && en[j] == (k, te[k]);
    }
  }

  /** The French and English tables define the same keys; every key is dotted and every text non-empty. */
  lemma ShippedTables()
    ensures FrTable.Keys == EnTable.Keys
    ensures forall k | k in FrTable :: '.' in k && FrTable[k] != "" && EnTable[k] != ""
  {
    AllSectionsAgree();
    AgreeingTables(FrEntries, EnEntries);
  }
}
