/** The records of the reference tables and the proficiency bands. */
module Types {

  /** `'beginner' | 'intermediate' | 'advanced'`, in increasing order. */
  datatype Level = Beginner | Intermediate | Advanced {
    /** Position in the order beginner < intermediate < advanced. */
    function Rank(): nat {
      match this
      case Beginner => 0
      case Intermediate => 1
      case Advanced => 2
    }
  }

  datatype Language = Language(id: string, name: string, code: string)

  datatype Topic = Topic(
    id: string,
    title: string,
    description: string,
    category: string,
    emotionalContext: string,
    difficulty: Level,
    hasImage: bool)

  /** A scripted prompt, by its id and its position in the scenario; its text and translation are only displayed. */
  datatype Prompt = Prompt(id: string, order: int)

  datatype Scenario = Scenario(id: string, topicId: string, title: string, prompts: seq<Prompt>)

  /** `'article' | 'video' | 'podcast' | 'book' | 'website'`. */
  datatype ResourceType = Article | Video | Podcast | Book | Website

  datatype Resource = Resource(
    id: string,
    title: string,
    description: string,
    kind: ResourceType,
    language: string,
    tags: seq<string>)
}
