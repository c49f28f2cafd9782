/** The skills section (components/skillsSection.tsx): a skill list, a project
    list, at most one selected skill, and the projects shown for it. */
module SkillsSection {
  import opened Wrappers

  datatype Skill = Skill(
    id: string, category: string, icon: string,
    tags: seq<string>, capabilities: seq<string>, projectIds: seq<int>)

  datatype Project = Project(
    id: int, title: string, category: string, description: string,
    tags: seq<string>, image: string, color: string, github: string, live: Option<string>)

  const SKILLS: seq<Skill> := [
    Skill("ai-ml", "AI & Machine Learning", "/images/ai-svgrepo-com.svg",
      ["AI/ML", "OCR", "RAG", "PyTorch", "CNN", "Research"],
      ["Deep Learning & Neural Networks", "Computer Vision (ConvNeXt, Segmentation)",
       "NLP & RAG Pipelines", "Model Training & Optimization"],
      [1, 3, 6]),
    Skill("backend", "Backend & Systems", "/images/coding-terminal-svgrepo-com.svg",
      ["Python", "Java", "Database", "MySQL", "Sockets"],
      ["Python & Java Backend Systems", "Database Design & Management",
       "Real-time Communication (Sockets)", "API Design & Integration"],
      [1, 2, 4, 8]),
    Skill("linux", "Security & Linux", "/images/linux-svgrepo-com.svg",
      ["Linux", "Cryptography", "Security"],
      ["Linux System Administration", "Cryptography & Data Security",
       "Secure Data Handling", "Compliance & Verification Systems"],
      [2, 8]),
    Skill("frontend", "Frontend Development", "/images/coding-website-svgrepo-com.svg",
      ["React", "Next.js", "UI/UX", "Java Swing"],
      ["Modern Frontend Frameworks", "Responsive Web Design",
       "Desktop Application Design", "Animation & User Experience"],
      [4, 6, 7, 9, 10]),
    Skill("gamedev", "Game Development", "/images/game-controller-round-799-svgrepo-com.svg",
      ["Pygame", "Game Dev", "Physics"],
      ["Game Mechanics & Physics", "Interactive Gameplay Systems",
       "Animation & Visual Effects", "Audio Integration"],
      [5, 10])
  ]

  const PROJECTS: seq<Project> := [
    Project(1, "SpendSight", "FinTech AI Pipeline",
      "Hybrid AI pipeline parsing financial PDFs with Regex → MiniLM → LLM stages",
      ["AI/ML", "OCR", "RAG", "Database"],
      "https://images.unsplash.com/photo-1551288049-bebda4e38f71?w=800&q=80", "#4F46E5",
      "https://github.com/Zenoguy/SpendSight_", None),
    Project(2, "Data Wiper", "Security Toolkit",
      "Enterprise-grade secure drive sanitization with AES-128 encryption",
      ["Linux", "Cryptography", "Security"],
      "https://images.unsplash.com/photo-1558494949-ef010cbdcc31?w=800&q=80", "#EC4899",
      "https://github.com/Zenoguy/data_wiping_linux", None),
    Project(3, "Leaf Disease Segmenter", "Computer Vision",
      "ConvNeXt-Tiny panoptic segmentation achieving 0.72 F1 score",
      ["PyTorch", "CNN", "Research"],
      "https://images.unsplash.com/photo-1530836369250-ef72a3f5cda8?w=800&q=80", "#10B981",
      "https://github.com/Zenoguy/Panoptic_Segmentation", None),
    Project(4, "ChatApp", "Desktop Messaging",
      "Real-time chat with Java Swing, Sockets, and MySQL persistence",
      ["Java", "Sockets", "MySQL"],
      "https://images.unsplash.com/photo-1611746872915-64382b5c76da?w=800&q=80", "#F59E0B",
      "https://github.com/Zenoguy/ChatApp-Java", None),
    Project(5, "Space Shooters", "Arcade Game",
      "Classic space shooter with progressive difficulty and power-ups",
      ["Python", "Pygame", "Game Dev"],
      "https://images.unsplash.com/photo-1550745165-9bc0b252726f?w=800&q=80", "#8B5CF6",
      "https://github.com/Zenoguy/Space_Shooters", Some("https://zenoguy.itch.io/space-shooters-concept-game")),
    Project(6, "BoldFlow", "Browser Extension",
      "Bionic reading extension with DOM manipulation and MutationObserver",
      ["TypeScript", "Chrome API", "UI/UX"],
      "https://images.unsplash.com/photo-1504639725590-34d0984388bd?w=800&q=80", "#3B82F6",
      "https://github.com/Zenoguy/bionic-reader", None),
    Project(7, "DevGeeks", "Marketing Website",
      "Modern Next.js site with 3D animations, glassmorphism, and pricing calculators",
      ["Next.js", "React", "UI/UX"],
      "https://images.unsplash.com/photo-1460925895917-afdab827c52f?w=800&q=80", "#06B6D4",
      "https://github.com/Rickyy-Sam07/devgeeks-v2", None),
    Project(8, "E2X ISO", "Bootable Linux Tool",
      "Secure drive wipe bootable ISO with multi-threat model support",
      ["Linux", "Python", "Security"],
      "https://images.unsplash.com/photo-1629654297299-c8506221ca97?w=800&q=80", "#EF4444",
      "https://github.com/Zenoguy/E2X-ISO", None),
    Project(9, "Hotel Booking", "Web Application",
      "React hotel booking interface with TypeScript and Tailwind",
      ["React", "TypeScript", "Tailwind"],
      "https://images.unsplash.com/photo-1566073771259-6a8506099945?w=800&q=80", "#F59E0B",
      "https://github.com/Zenoguy/Hotel-Booking", Some("https://hotel-booking-navy-six.vercel.app")),
    Project(10, "Sudoku Game", "Web Game",
      "Interactive Sudoku with auto-solve algorithm and board generation",
      ["JavaScript", "Game Dev", "Algorithms"],
      "https://images.unsplash.com/photo-1611996575749-79a3a250f948?w=800&q=80", "#8B5CF6",
      "https://github.com/Zenoguy/Sudoku", Some("https://zenoguy.github.io/Sudoku/"))
  ]

  /** `r` is `s` with some elements left out and the rest in their order. */
  ghost predicate IsSubsequence<T>(r: seq<T>, s: seq<T>)
    decreases |s|
  {
    if r == [] then true
    else if s == [] then false
    else (r[0] == s[0] && IsSubsequence(r[1..], s[1..])) || IsSubsequence(r, s[1..])
  }

  /** `ps.filter(p => ids.includes(p.id))`. */
  function KeepIds(ps: seq<Project>, ids: seq<int>): (r: seq<Project>)
    ensures |r| <= |ps|
    ensures forall p :: p in r <==> p in ps && p.id in ids
  {
    if ps == [] then []
    else (if ps[0].id in ids then [ps[0]] else []) + KeepIds(ps[1..], ids)
  }

  lemma {:induction false} KeepIdsInOrder(ps: seq<Project>, ids: seq<int>)
    ensures IsSubsequence(KeepIds(ps, ids), ps)
  {
    if ps != [] {
      KeepIdsInOrder(ps[1..], ids);
      var rest := KeepIds(ps[1..], ids);
      if ps[0].id in ids {
        assert KeepIds(ps, ids) == [ps[0]] + rest;
        assert ([ps[0]] + rest)[1..] == rest;
      } else {
        assert KeepIds(ps, ids) == rest;
        if rest != [] {
          assert IsSubsequence(rest, ps[1..]);
        }
      }
    }
  }

  /** `filteredProjects`: every project with no skill selected, else exactly the
      projects the selected skill lists, in their original order. */
  function FilteredProjects(active: Option<Skill>, projects: seq<Project>): (r: seq<Project>)
    ensures active.None? ==> r == projects
    ensures active.Some? ==> forall p :: p in r <==> p in projects && p.id in active.value.projectIds
    ensures |r| <= |projects|
  {
    if active.None? then projects else KeepIds(projects, active.value.projectIds)
  }

  lemma FilteredInOrder(active: Option<Skill>, projects: seq<Project>)
    ensures IsSubsequence(FilteredProjects(active, projects), projects)
  {
    if active.Some? {
      KeepIdsInOrder(projects, active.value.projectIds);
    } else {
      SubsequenceOfSelf(projects);
    }
  }

  lemma {:induction false} SubsequenceOfSelf<T>(s: seq<T>)
    ensures IsSubsequence(s, s)
  {
    if s != [] {
      SubsequenceOfSelf(s[1..]);
    }
  }

  /** `activeSkill?.id === skill.id ? null : skill`: clicking the selected skill
      clears the selection, clicking any other selects it. */
  function Toggle(active: Option<Skill>, clicked: Skill): (next: Option<Skill>)
    ensures next.None? <==> active.Some? && active.value.id == clicked.id
    ensures next.Some? ==> next.value == clicked
  {
    if active.Some? && active.value.id == clicked.id then None else Some(clicked)
  }

  /** Two clicks on one skill restore the selection exactly when nothing, or that
      very skill, was selected before; from another skill they end with nothing selected. */
  lemma ToggleTwice(active: Option<Skill>, clicked: Skill)
    ensures Toggle(Toggle(active, clicked), clicked) == active <==> active.None? || active == Some(clicked)
    ensures active.Some? && active.value.id != clicked.id ==> Toggle(Toggle(active, clicked), clicked).None?
  {
  }

  /** `xs.slice(0, k)`: the first `k` elements, or all of them when there are fewer. */
  function SliceFront<T>(xs: seq<T>, k: nat): (r: seq<T>)
    ensures |r| == if |xs| < k then |xs| else k
    ensures r <= xs
  {
    if |xs| < k then xs else xs[..k]
  }

  const SHOWN_TAGS: nat := 3
  const SHOWN_CAPABILITIES: nat := 2

  function ShownTags(s: Skill): (r: seq<string>)
    ensures |r| == if |s.tags| < SHOWN_TAGS then |s.tags| else SHOWN_TAGS
    ensures r <= s.tags
  {
    SliceFront(s.tags, SHOWN_TAGS)
  }

  function ShownCapabilities(s: Skill): (r: seq<string>)
    ensures |r| == if |s.capabilities| < SHOWN_CAPABILITIES then |s.capabilities| else SHOWN_CAPABILITIES
    ensures r <= s.capabilities
  {
    SliceFront(s.capabilities, SHOWN_CAPABILITIES)
  }

  predicate ProjectIdsUnique(ps: seq<Project>) {
    forall i, j :: 0 <= i < j < |ps| ==> ps[i].id != ps[j].id
  }

  predicate SkillIdsUnique(ss: seq<Skill>) {
    forall i, j :: 0 <= i < j < |ss| ==> ss[i].id != ss[j].id
  }

  /** Every id a skill lists names a project. */
  predicate IdsResolve(ss: seq<Skill>, ps: seq<Project>) {
    forall s, id :: s in ss && id in s.projectIds ==> exists p :: p in ps && p.id == id
  }

  /** The two tables agree: ids are unique and every listed project exists. */
  lemma TablesConsistent()
    ensures ProjectIdsUnique(PROJECTS)
    ensures SkillIdsUnique(SKILLS)
    ensures IdsResolve(SKILLS, PROJECTS)
  {
    forall i | 0 <= i < |PROJECTS| ensures PROJECTS[i].id == i + 1 { }
    forall s, id | s in SKILLS && id in s.projectIds ensures exists p :: p in PROJECTS && p.id == id {
      assert 1 <= id <= 10;
      assert PROJECTS[id - 1].id == id;
    }
  }
}
