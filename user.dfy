/**
 * The generated user profile record, field for field as declared in
 * scripts/generateUsers.ts (and duplicated in types/user.ts). Numbers are
 * unbounded integers; optional social handles are `Option<string>`.
 */
module UserModel {
  import opened Wrappers

  datatype Project = Project(name: string, description: string, year: int)

  /** An absent handle is `None`, never an empty string. */
  datatype SocialLinks = SocialLinks(twitter: Option<string>, linkedin: Option<string>, github: Option<string>)

  datatype Preferences = Preferences(theme: string, language: string, notifications: bool)

  datatype Stats = Stats(followers: int, following: int, posts: int, likes: int)

  datatype User = User(
    id: int,
    name: string,
    email: string,
    avatar: string,
    bio: string,
    company: string,
    position: string,
    location: string,
    skills: seq<string>,
    projects: seq<Project>,
    socialLinks: SocialLinks,
    preferences: Preferences,
    stats: Stats)
}
