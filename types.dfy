/** The records of the portfolio's data catalog and chat transcript. */
module Types {
  import opened Common

  /** A node of the skill graph: catalog coordinates (x, y, z), a CSS colour and a relative size. */
  datatype Skill = Skill(name: string, position: (real, real, real), color: string, size: real)

  /** An edge of the skill graph, naming its two end skills. */
  datatype SkillConnection = SkillConnection(from: string, to: string)

  /** A portfolio project; the two links are optional fields. */
  datatype Project = Project(
    id: string,
    title: string,
    description: string,
    categories: seq<string>,
    year: string,
    image: string,
    techStack: seq<string>,
    githubUrl: Option<string>,
    demoUrl: Option<string>)

  datatype Role = User | Ai | System

  /** One line of the assistant's transcript. */
  datatype AIMessage = AIMessage(role: Role, content: string)
}
