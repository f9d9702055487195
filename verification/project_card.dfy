/**
 * The dashboard's project card: counters defaulted to 0, the progress-bar gradient chosen
 * by completion band, the "Completed" badge and the owner-only menu.
 */
module ProjectCardView {
  import opened Wrappers
  import opened Projects

  const GREEN := "from-green-500 to-emerald-500"
  const BLUE := "from-blue-500 to-cyan-500"
  const YELLOW := "from-yellow-500 to-orange-500"
  const RED := "from-red-500 to-pink-500"

  /** `getProgressGradient`: the first threshold the percentage reaches, from the top. */
  function ProgressGradient(percentage: int): string {
    if percentage >= 75 then GREEN
    else if percentage >= 50 then BLUE
    else if percentage >= 25 then YELLOW
    else RED
  }

  /** The four bands partition the percentages: each value gets exactly one gradient. */
  lemma GradientBands(percentage: int)
    ensures ProgressGradient(percentage) == GREEN <==> percentage >= 75
    ensures ProgressGradient(percentage) == BLUE <==> 50 <= percentage < 75
    ensures ProgressGradient(percentage) == YELLOW <==> 25 <= percentage < 50
    ensures ProgressGradient(percentage) == RED <==> percentage < 25
  {
    assert GREEN != BLUE && GREEN != YELLOW && GREEN != RED;
    assert BLUE != YELLOW && BLUE != RED && YELLOW != RED;
  }

  /** What a card shows for a project. */
  datatype Card = Card(
    totalTasks: int,
    completedTasks: int,
    completionPercentage: int,
    gradient: string,
    completedBadge: bool,
    menu: bool,
    memberCount: nat)

  /**
   * The card for `project`: `x || 0` on the three counters, the gradient of the percentage,
   * the badge at exactly 100, the menu only for the owner, and the bare member count.
   */
  function CardOf(project: Project): (c: Card)
    ensures c.totalTasks == project.taskCount.GetOr(0)
    ensures c.completedTasks == project.completedTaskCount.GetOr(0)
    ensures c.completionPercentage == project.completionPercentage.GetOr(0)
    ensures project.completionPercentage.None? ==> c.completionPercentage == 0 && c.gradient == RED
    ensures c.gradient == ProgressGradient(c.completionPercentage)
    ensures c.completedBadge <==> c.completionPercentage == 100
    ensures c.menu <==> project.isOwner
    ensures c.memberCount == |project.members|
  {
    var pct := project.completionPercentage.GetOr(0);
    Card(project.taskCount.GetOr(0), project.completedTaskCount.GetOr(0), pct,
         ProgressGradient(pct), pct == 100, project.isOwner, |project.members|)
  }

  /** A card with the badge always has the green bar. */
  lemma BadgeImpliesGreen(project: Project)
    ensures CardOf(project).completedBadge ==> CardOf(project).gradient == GREEN
  {
  }
}
